/**
 The mode machine of the login window.

 The window and its user list widget each have a model of the users, so the rows
 they see change in separate steps, in either order.
 */
module GreeterLoginWindow {
  import opened AuthTypes

  datatype LoginMode = UserListMode | ManualMode

  datatype ButtonType = SwitchToManualLogin | ReturnButton

  /** The source leaves the input mode unset until it is first assigned. */
  datatype InputMode = Unset | UserName | PromptRespond

  /** Which of the prompt edit, the auto-login button and the re-authentication
      button are visible. */
  datatype Inputs = Inputs(edit: bool, autologin: bool, reAuth: bool)

  /** m_loginMode, m_buttonType, m_inputMode and the widgets they govern. */
  datatype Screen = Screen(
    loginMode: LoginMode, buttonType: ButtonType, inputMode: InputMode, userLabel: string,
    buttonVisible: bool, listEnabled: bool, listVisible: bool, inputs: Inputs)

  datatype Config = Config(allowManual: bool, showUserList: bool, autologinUser: string)

  /** What the window asks of the proxy and of the display manager. */
  datatype Request =
    | CancelAuthentication
    | Authenticate(user: string)
    | Respond(text: string)
    | StartSession

  /** m_havePrompted, and the history: requests made, prompts shown, restarts after
      a failure. */
  datatype Log = Log(havePrompted: bool, requests: seq<Request>, prompts: nat, restarts: nat)

  /** Rows of the window's model and of the widget, and whether the former was ever
      without rows. */
  datatype Rows = Rows(model: nat, widget: nat, wasEmpty: bool)

  datatype Greeter = Greeter(config: Config, screen: Screen, rows: Rows, log: Log)

  // ----- the pieces the slots are made of

  /** switchToPromptEdit, switchToAutoLogin and switchToReAuthentication. */
  const PROMPT_EDIT: Inputs := Inputs(true, false, false)
  const AUTO_LOGIN: Inputs := Inputs(false, true, false)
  const RE_AUTHENTICATION: Inputs := Inputs(false, false, true)

  function Asked(log: Log, request: Request): Log {
    log.(requests := log.requests + [request])
  }

  function CancelIf(log: Log, inAuthentication: bool): Log {
    if inAuthentication then Asked(log, CancelAuthentication) else log
  }

  function StartAuthUser(g: Greeter, user: string, inAuthentication: bool): Greeter {
    var log := CancelIf(g.log, inAuthentication).(havePrompted := false);
    if user == g.config.autologinUser then
      g.(screen := g.screen.(userLabel := user, inputs := AUTO_LOGIN), log := log)
    else
      g.(screen := g.screen.(userLabel := user, inputs := PROMPT_EDIT), log := Asked(log, Authenticate(user)))
  }

  function ListShown(g: Greeter, inAuthentication: bool): Greeter {
    g.(screen := Screen(UserListMode, SwitchToManualLogin, g.screen.inputMode, "",
                        g.config.allowManual, true, true, PROMPT_EDIT),
       log := CancelIf(g.log, inAuthentication))
  }

  /** Back to the list.  With users in it one is activated: the selected one, or
      else the first; `user` says which. */
  function ResetUIForUserListLogin(g: Greeter, user: string, inAuthentication: bool): Greeter {
    if g.rows.widget > 0 then StartAuthUser(ListShown(g, inAuthentication), user, false)
    else ListShown(g, inAuthentication)
  }

  function ResetUIForManualLogin(g: Greeter, inAuthentication: bool): Greeter {
    g.(screen := Screen(ManualMode, ReturnButton, UserName, "",
                        g.config.showUserList && g.rows.widget > 0, false, false, PROMPT_EDIT),
       log := CancelIf(g.log, inAuthentication))
  }

  // ----- the slots

  /** The configuration file as initSettings reads it, if it can be read. */
  datatype Settings = Settings(allowManualLogin: bool, hideUserList: bool)

  function Read(settings: Option<Settings>, autologinUser: string): Config {
    match settings
    case None => Config(true, true, autologinUser)
    case Some(s) => Config(s.allowManualLogin, !s.allowManualLogin || !s.hideUserList, autologinUser)
  }

  /** The constructor's state with the settings read. */
  function Fresh(config: Config, model: nat, widget: nat): Greeter {
    Greeter(config,
            Screen(UserListMode, SwitchToManualLogin, Unset, "", true, true, true, PROMPT_EDIT),
            Rows(model, widget, model == 0),
            Log(false, [], 0, 0))
  }

  /** initSettings. */
  function Init(config: Config, model: nat, widget: nat, user: string): Greeter {
    var g := Fresh(config, model, widget);
    if config.showUserList && model > 0 then ResetUIForUserListLogin(g, user, false)
    else ResetUIForManualLogin(g, false)
  }

  function OnButtonClicked(g: Greeter, user: string, inAuthentication: bool): Greeter {
    match g.screen.buttonType
    case SwitchToManualLogin => ResetUIForManualLogin(g, inAuthentication)
    case ReturnButton =>
      match g.screen.inputMode
      case UserName => ResetUIForUserListLogin(g, user, inAuthentication)
      case PromptRespond => ResetUIForManualLogin(g, inAuthentication)
      case Unset => g
  }

  function OnShowPrompt(g: Greeter, authUser: string): Greeter {
    var s := if g.screen.loginMode.ManualMode?
             then g.screen.(userLabel := authUser, buttonType := ReturnButton, buttonVisible := true)
             else g.screen;
    g.(screen := s.(inputMode := PromptRespond),
       log := g.log.(havePrompted := true, prompts := g.log.prompts + 1))
  }

  function OnAuthComplete(g: Greeter, success: bool, authUser: string, inAuthentication: bool): Greeter {
    if success then g.(log := Asked(g.log, StartSession))
    else if g.log.havePrompted then
      StartAuthUser(g.(log := g.log.(restarts := g.log.restarts + 1)), authUser, inAuthentication)
    else g.(screen := g.screen.(inputs := RE_AUTHENTICATION))
  }

  function OnReAuthClicked(g: Greeter, user: string, inAuthentication: bool): Greeter {
    if g.screen.loginMode.UserListMode? then ResetUIForUserListLogin(g, user, inAuthentication)
    else ResetUIForManualLogin(g, inAuthentication)
  }

  /** The auto-login button was clicked. */
  function OnAutologinClicked(g: Greeter): Greeter {
    g.(log := Asked(g.log, Authenticate(g.config.autologinUser)))
  }

  /** The display manager's auto-login timer ran out. */
  function OnAutologinExpired(g: Greeter): Greeter {
    if g.config.autologinUser == "" then g else OnAutologinClicked(g)
  }

  function OnTextConfirmed(g: Greeter, text: string, inAuthentication: bool): Greeter {
    if g.screen.inputMode.PromptRespond? then g.(log := Asked(g.log, Respond(text)))
    else StartAuthUser(g, text, inAuthentication)
  }

  function OnModelRowsInserted(g: Greeter, count: nat, authenticated: bool): Greeter {
    var r := g.(rows := g.rows.(model := count));
    if count == 1 && g.config.showUserList && g.screen.loginMode.ManualMode? && !authenticated
    then r.(screen := g.screen.(buttonVisible := true))
    else r
  }

  function OnModelRowsRemoved(g: Greeter, left: nat, inAuthentication: bool): Greeter {
    var r := g.(rows := g.rows.(model := left, wasEmpty := g.rows.wasEmpty || left == 0));
    if left == 0 then ResetUIForManualLogin(r, inAuthentication) else r
  }

  /** The widget inserted rows; with none selected it selects the first. */
  function OnWidgetRowsInserted(g: Greeter, count: nat, selectFirst: bool, user: string, inAuthentication: bool): Greeter {
    var r := g.(rows := g.rows.(widget := count));
    if selectFirst then StartAuthUser(r, user, inAuthentication) else r
  }

  /** The widget removed rows; if the selected one was among them it selects the
      first, or asks for a reset when none is left. */
  function OnWidgetRowsRemoved(g: Greeter, left: nat, reselect: bool, user: string, inAuthentication: bool): Greeter {
    var r := g.(rows := g.rows.(widget := left));
    if !reselect then r
    else if left > 0 then StartAuthUser(r, user, inAuthentication)
    else ResetUIForUserListLogin(r, user, inAuthentication)
  }

  // ----- the class

  class GreeterLoginWindow {
    var config: Config
    var m_loginMode: LoginMode
    var m_buttonType: ButtonType
    var m_inputMode: InputMode
    var m_havePrompted: bool
    var userLabel: string
    var buttonVisible: bool
    var listEnabled: bool
    var listVisible: bool
    var inputs: Inputs
    var rows: Rows
    var requests: seq<Request>
    // how many prompts were shown, and how many failures restarted
    var prompts: nat
    var restarts: nat

    function State(): Greeter
      reads this
    {
      Greeter(config,
              Screen(m_loginMode, m_buttonType, m_inputMode, userLabel, buttonVisible, listEnabled, listVisible, inputs),
              rows,
              Log(m_havePrompted, requests, prompts, restarts))
    }

    constructor (settings: Option<Settings>, autologinUser: string, model: nat, widget: nat)
      ensures State() == Fresh(Read(settings, autologinUser), model, widget)
    {
      config := Read(settings, autologinUser);
      m_loginMode, m_buttonType, m_inputMode := UserListMode, SwitchToManualLogin, Unset;
      userLabel, buttonVisible, listEnabled, listVisible := "", true, true, true;
      inputs, rows := PROMPT_EDIT, Rows(model, widget, model == 0);
      m_havePrompted, requests, prompts, restarts := false, [], 0, 0;
    }

    method CancelIfAuthenticating(inAuthentication: bool)
      modifies this`requests
      ensures State() == old(State()).(log := CancelIf(old(State()).log, inAuthentication))
    {
      if inAuthentication {
        requests := requests + [CancelAuthentication];
      }
    }

    method StartAuthenticating(user: string, inAuthentication: bool)
      modifies this
      ensures State() == StartAuthUser(old(State()), user, inAuthentication)
    {
      CancelIfAuthenticating(inAuthentication);
      m_havePrompted := false;
      userLabel := user;
      if user == config.autologinUser {
        inputs := AUTO_LOGIN;
      } else {
        inputs := PROMPT_EDIT;
        requests := requests + [Authenticate(user)];
      }
    }

    method ResetForUserListLogin(user: string, inAuthentication: bool)
      modifies this
      ensures State() == ResetUIForUserListLogin(old(State()), user, inAuthentication)
    {
      CancelIfAuthenticating(inAuthentication);
      m_buttonType := SwitchToManualLogin;
      buttonVisible := config.allowManual;
      userLabel := "";
      inputs := PROMPT_EDIT;
      listVisible := true;
      listEnabled := true;
      m_loginMode := UserListMode;
      assert State() == ListShown(old(State()), inAuthentication);
      if rows.widget > 0 {
        StartAuthenticating(user, false);
      }
    }

    method ResetForManualLogin(inAuthentication: bool)
      modifies this
      ensures State() == ResetUIForManualLogin(old(State()), inAuthentication)
    {
      CancelIfAuthenticating(inAuthentication);
      m_buttonType := ReturnButton;
      buttonVisible := config.showUserList && rows.widget > 0;
      userLabel := "";
      m_inputMode := UserName;
      inputs := PROMPT_EDIT;
      listEnabled := false;
      listVisible := false;
      m_loginMode := ManualMode;
    }

    /** `asserted` says whether every assertion on the way held; in a release build
        the slot goes on regardless. */
    method SlotButtonClicked(user: string, inAuthentication: bool) returns (asserted: bool)
      modifies this
      ensures State() == OnButtonClicked(old(State()), user, inAuthentication)
      ensures asserted <==> AssertionsHold(old(State()), ButtonClicked(user))
    {
      asserted := true;
      if m_buttonType == SwitchToManualLogin {
        asserted := m_loginMode == UserListMode;
        ResetForManualLogin(inAuthentication);
      } else if m_buttonType == ReturnButton {
        asserted := m_loginMode == ManualMode;
        if m_inputMode == UserName {
          asserted := asserted && config.showUserList;
          ResetForUserListLogin(user, inAuthentication);
        } else if m_inputMode == PromptRespond {
          asserted := asserted && config.allowManual;
          ResetForManualLogin(inAuthentication);
        }
      }
    }

    /** The handlers of the auto-login button and of the auto-login timer: neither
        asks whether an authentication is going on. */
    method SlotAutologinClicked()
      modifies this`requests
      ensures State() == OnAutologinClicked(old(State()))
    {
      requests := requests + [Authenticate(config.autologinUser)];
    }

    method SlotAutologinTimerExpired()
      modifies this`requests
      ensures State() == OnAutologinExpired(old(State()))
    {
      if config.autologinUser != "" {
        requests := requests + [Authenticate(config.autologinUser)];
      }
    }

    method SlotShowprompt(authUser: string)
      modifies this
      ensures State() == OnShowPrompt(old(State()), authUser)
    {
      if m_loginMode == ManualMode {
        if authUser != userLabel {
          userLabel := authUser;
        }
        m_buttonType := ReturnButton;
        buttonVisible := true;
      }
      m_inputMode := PromptRespond;
      m_havePrompted := true;
      prompts := prompts + 1;
    }

    method SlotAuthenticationComplete(success: bool, authUser: string, inAuthentication: bool)
      modifies this
      ensures State() == OnAuthComplete(old(State()), success, authUser, inAuthentication)
    {
      if success {
        requests := requests + [StartSession];
      } else {
        if m_havePrompted {
          restarts := restarts + 1;
          StartAuthenticating(authUser, inAuthentication);
        } else {
          inputs := RE_AUTHENTICATION;
        }
      }
    }

    method SlotTextConfirmed(text: string, inAuthentication: bool)
      modifies this
      ensures State() == OnTextConfirmed(old(State()), text, inAuthentication)
    {
      if m_inputMode == PromptRespond {
        requests := requests + [Respond(text)];
      } else {
        StartAuthenticating(text, inAuthentication);
      }
    }
  }

  // ----- the machine

  datatype Label =
    | UserActivated(user: string)
    | TextConfirmed(text: string)
    | ButtonClicked(user: string)
    | ShowPrompt(authUser: string)
    | AuthComplete(success: bool, authUser: string)
    | ReAuthClicked(user: string)
    | AutologinClicked
    | AutologinExpired
    | ModelRowsInserted(count: nat, authenticated: bool)
    | ModelRowsRemoved(left: nat)
    | WidgetRowsInserted(count: nat, selectFirst: bool, user: string)
    | WidgetRowsRemoved(left: nat, reselect: bool, user: string)

  /** A step and what the proxy's inAuthentication answers during it. */
  datatype Step = Step(l: Label, inAuthentication: bool)

  predicate Enabled(g: Greeter, l: Label) {
    match l
    case TextConfirmed(_) => g.screen.inputs.edit
    case ButtonClicked(_) => g.screen.buttonVisible
    case ReAuthClicked(_) => g.screen.inputs.reAuth
    case AutologinClicked => g.screen.inputs.autologin
    case ModelRowsInserted(count, _) => count > g.rows.model
    case ModelRowsRemoved(left) => left < g.rows.model
    case WidgetRowsInserted(count, selectFirst, _) =>
      count > g.rows.widget && (selectFirst ==> g.screen.listEnabled)
    case WidgetRowsRemoved(left, reselect, _) =>
      left < g.rows.widget && (reselect ==> g.screen.listEnabled)
    case _ => true
  }

  function Apply(g: Greeter, step: Step): Greeter {
    var b := step.inAuthentication;
    match step.l
    case UserActivated(user) => StartAuthUser(g, user, b)
    case TextConfirmed(text) => OnTextConfirmed(g, text, b)
    case ButtonClicked(user) => OnButtonClicked(g, user, b)
    case ShowPrompt(authUser) => OnShowPrompt(g, authUser)
    case AuthComplete(success, authUser) => OnAuthComplete(g, success, authUser, b)
    case ReAuthClicked(user) => OnReAuthClicked(g, user, b)
    case AutologinClicked => OnAutologinClicked(g)
    case AutologinExpired => OnAutologinExpired(g)
    case ModelRowsInserted(count, authenticated) => OnModelRowsInserted(g, count, authenticated)
    case ModelRowsRemoved(left) => OnModelRowsRemoved(g, left, b)
    case WidgetRowsInserted(count, selectFirst, user) => OnWidgetRowsInserted(g, count, selectFirst, user, b)
    case WidgetRowsRemoved(left, reselect, user) => OnWidgetRowsRemoved(g, left, reselect, user, b)
  }

  /** The assertions of the source that step `l` passes. */
  predicate AssertionsHold(g: Greeter, l: Label) {
    match l
    case ButtonClicked(_) =>
      if g.screen.buttonType.SwitchToManualLogin? then g.screen.loginMode.UserListMode?
      else
        && g.screen.loginMode.ManualMode?
        && (g.screen.inputMode.UserName? ==> g.config.showUserList)
        && (g.screen.inputMode.PromptRespond? ==> g.config.allowManual)
    case WidgetRowsRemoved(left, reselect, _) => reselect && left == 0 ==> g.screen.loginMode.UserListMode?
    case _ => true
  }

  predicate Runs(g: Greeter, ls: seq<Step>)
    decreases |ls|
  {
    ls == [] || (Enabled(g, ls[0].l) && Runs(Apply(g, ls[0]), ls[1..]))
  }

  function After(g: Greeter, ls: seq<Step>): Greeter
    decreases |ls|
  {
    if ls == [] then g else After(Apply(g, ls[0]), ls[1..])
  }

  ghost predicate Reachable(g: Greeter) {
    exists settings, autologinUser, model: nat, widget: nat, user, ls ::
      && Runs(Init(Read(settings, autologinUser), model, widget, user), ls)
      && After(Init(Read(settings, autologinUser), model, widget, user), ls) == g
  }

  // ----- the invariant

  predicate ModesAgree(s: Screen) {
    && (s.buttonType.ReturnButton? <==> s.loginMode.ManualMode?)
    && (s.loginMode.ManualMode? <==> !s.listEnabled)
    && s.listVisible == s.listEnabled
  }

  predicate OneShown(i: Inputs) {
    && (i.edit || i.autologin || i.reAuth)
    && !(i.edit && i.autologin)
    && !(i.edit && i.reAuth)
    && !(i.autologin && i.reAuth)
  }

  predicate ScreenInv(c: Config, s: Screen, wasEmpty: bool) {
    && ModesAgree(s)
    && OneShown(s.inputs)
    && (s.loginMode.UserListMode? ==> s.buttonVisible == c.allowManual)
    && (s.loginMode.ManualMode? ==> !s.inputMode.Unset?)
    && (s.loginMode.ManualMode? && s.inputMode.UserName? && s.buttonVisible ==> c.showUserList)
    && (s.loginMode.ManualMode? ==> c.allowManual || wasEmpty)
  }

  predicate LogInv(log: Log) {
    log.restarts + (if log.havePrompted then 1 else 0) <= log.prompts
  }

  predicate Inv(g: Greeter) {
    && (!g.config.allowManual ==> g.config.showUserList)
    && ScreenInv(g.config, g.screen, g.rows.wasEmpty)
    && LogInv(g.log)
  }

  lemma StartKeeps(g: Greeter, user: string, inAuthentication: bool)
    requires Inv(g)
    ensures Inv(StartAuthUser(g, user, inAuthentication))
  {
  }

  lemma ResetToListKeeps(g: Greeter, user: string, inAuthentication: bool)
    requires Inv(g)
    ensures Inv(ResetUIForUserListLogin(g, user, inAuthentication))
  {
    assert Inv(ListShown(g, inAuthentication));
    StartKeeps(ListShown(g, inAuthentication), user, false);
  }

  lemma RowsKeep(g: Greeter, step: Step)
    requires Inv(g) && Enabled(g, step.l)
    requires step.l.ModelRowsInserted? || step.l.ModelRowsRemoved?
             || step.l.WidgetRowsInserted? || step.l.WidgetRowsRemoved?
    ensures Inv(Apply(g, step))
  {
    if step.l.WidgetRowsInserted? {
      StartKeeps(g.(rows := g.rows.(widget := step.l.count)), step.l.user, step.inAuthentication);
    } else if step.l.WidgetRowsRemoved? {
      var r := g.(rows := g.rows.(widget := step.l.left));
      StartKeeps(r, step.l.user, step.inAuthentication);
      ResetToListKeeps(r, step.l.user, step.inAuthentication);
    }
  }

  lemma InvKept(g: Greeter, step: Step)
    requires Inv(g) && Enabled(g, step.l)
    ensures Inv(Apply(g, step))
  {
    var l, b := step.l, step.inAuthentication;
    if l.UserActivated? || l.TextConfirmed? {
      StartKeeps(g, if l.UserActivated? then l.user else l.text, b);
    } else if l.ButtonClicked? || l.ReAuthClicked? {
      ResetToListKeeps(g, l.user, b);
    } else if !l.ShowPrompt? && !l.AuthComplete? && !l.AutologinClicked? && !l.AutologinExpired? {
      RowsKeep(g, step);
    }
  }

  lemma {:induction false} InvAfter(g: Greeter, ls: seq<Step>)
    requires Inv(g) && Runs(g, ls)
    ensures Inv(After(g, ls))
    decreases |ls|
  {
    if ls != [] {
      InvKept(g, ls[0]);
      InvAfter(Apply(g, ls[0]), ls[1..]);
    }
  }

  lemma InvInit(settings: Option<Settings>, autologinUser: string, model: nat, widget: nat, user: string)
    ensures Inv(Init(Read(settings, autologinUser), model, widget, user))
  {
  }

  lemma ReachableInv(g: Greeter)
    requires Reachable(g)
    ensures Inv(g)
  {
    var settings, autologinUser, model: nat, widget: nat, user, ls :|
      && Runs(Init(Read(settings, autologinUser), model, widget, user), ls)
      && After(Init(Read(settings, autologinUser), model, widget, user), ls) == g;
    InvInit(settings, autologinUser, model, widget, user);
    InvAfter(Init(Read(settings, autologinUser), model, widget, user), ls);
  }

  // ----- theorems

  /** The button means return exactly in manual mode, which is exactly when the
      user list is off; exactly one way to go on is on the screen; and manual mode
      is entered only when allowed or when there was nobody to list. */
  lemma ModeInvariant(g: Greeter)
    requires Reachable(g)
    ensures ModesAgree(g.screen) && OneShown(g.screen.inputs)
    ensures g.screen.loginMode.ManualMode? ==> g.config.allowManual || g.rows.wasEmpty
  {
    ReachableInv(g);
  }

  /** In every reachable state a possible step passes all its assertions, except
      that clicking return at a prompt fails the last one if and only if manual
      login is not allowed. */
  lemma AssertionsHoldIff(g: Greeter, l: Label)
    requires Reachable(g) && Enabled(g, l)
    ensures AssertionsHold(g, l) <==>
            !(&& l.ButtonClicked? && g.screen.loginMode.ManualMode?
              && g.screen.inputMode.PromptRespond? && !g.config.allowManual)
  {
    ReachableInv(g);
  }

  /** So they all hold when manual login is allowed, or the list never empties. */
  lemma AssertionsHoldWhen(g: Greeter, l: Label)
    requires Reachable(g) && Enabled(g, l)
    requires g.config.allowManual || !g.rows.wasEmpty
    ensures AssertionsHold(g, l)
  {
    ReachableInv(g);
  }

  /** The last user goes, somebody types a name, and its authentication prompts. */
  function EmptyingSchedule(user: string, b: bool, c: bool, d: bool): seq<Step> {
    [Step(ModelRowsRemoved(0), b), Step(TextConfirmed(user), c), Step(ShowPrompt(user), d)]
  }

  /** And when it is not allowed, emptying the list is all it takes: after that, from
      any reachable state, a prompt for a typed name is enough for a click on return
      to fail. */
  lemma {:induction false} EmptyListBreaksAssertion(g: Greeter, user: string, b: bool, c: bool, d: bool)
    requires Reachable(g) && !g.config.allowManual && g.rows.model > 0 && user != g.config.autologinUser
    ensures
      var ls := EmptyingSchedule(user, b, c, d);
      && Runs(g, ls)
      && After(g, ls[..2]).log.requests != [] && Last(After(g, ls[..2]).log.requests) == Authenticate(user)
      && Enabled(After(g, ls), ButtonClicked(user))
      && !AssertionsHold(After(g, ls), ButtonClicked(user))
  {
    var ls := EmptyingSchedule(user, b, c, d);
    var g1 := Apply(g, ls[0]);
    var g2 := Apply(g1, ls[1]);
    RunsCons(g2, ls[2], []);
    RunsCons(g1, ls[1], [ls[2]]);
    RunsCons(g1, ls[1], []);
    RunsCons(g, ls[0], [ls[1], ls[2]]);
    RunsCons(g, ls[0], [ls[1]]);
    assert ls == [ls[0]] + [ls[1], ls[2]] && ls[..2] == [ls[0]] + [ls[1]];
    assert [ls[1], ls[2]] == [ls[1]] + [ls[2]] && [ls[1]] + [] == [ls[1]] && [ls[2]] + [] == [ls[2]];
  }

  function Last(requests: seq<Request>): Request
    requires requests != []
  {
    requests[|requests| - 1]
  }

  lemma {:induction false} RunsCons(g: Greeter, step: Step, ls: seq<Step>)
    ensures After(g, [step] + ls) == After(Apply(g, step), ls)
    ensures Enabled(g, step.l) && Runs(Apply(g, step), ls) ==> Runs(g, [step] + ls)
  {
    assert ([step] + ls)[1..] == ls;
  }

  /** Restarts after a failure never outnumber the prompts shown. */
  lemma RestartsBounded(g: Greeter)
    requires Reachable(g)
    ensures g.log.restarts <= g.log.prompts
  {
    ReachableInv(g);
  }

  /** Only a failure after a prompt restarts, and restarting forgets the prompt. */
  lemma RestartForgetsPrompt(g: Greeter, step: Step)
    ensures
      var log, log' := g.log, Apply(g, step).log;
      && (log'.restarts != log.restarts ==> log.havePrompted && !log'.havePrompted)
      && (log'.havePrompted && !log.havePrompted ==> step.l.ShowPrompt?)
  {
  }

  /** The steps that reset the window to manual login. */
  predicate ToManual(g: Greeter, l: Label) {
    match l
    case ButtonClicked(_) =>
      g.screen.buttonType.SwitchToManualLogin? || g.screen.inputMode.PromptRespond?
    case ReAuthClicked(_) => g.screen.loginMode.ManualMode?
    case ModelRowsRemoved(left) => left == 0
    case _ => false
  }

  /** And those that reset it to the user list. */
  predicate ToList(g: Greeter, l: Label) {
    match l
    case ButtonClicked(_) => g.screen.buttonType.ReturnButton? && g.screen.inputMode.UserName?
    case ReAuthClicked(_) => g.screen.loginMode.UserListMode?
    case WidgetRowsRemoved(left, reselect, _) => reselect && left == 0
    case _ => false
  }

  /** The user a step turns to: activated, typed, asked again after a prompted failure,
      or selected in the list. */
  function Begins(g: Greeter, l: Label): Option<string> {
    match l
    case UserActivated(user) => Some(user)
    case TextConfirmed(text) => if g.screen.inputMode.PromptRespond? then None else Some(text)
    case AuthComplete(success, authUser) => if !success && g.log.havePrompted then Some(authUser) else None
    case ButtonClicked(user) => if ToList(g, l) && g.rows.widget > 0 then Some(user) else None
    case ReAuthClicked(user) => if ToList(g, l) && g.rows.widget > 0 then Some(user) else None
    case WidgetRowsInserted(_, selectFirst, user) => if selectFirst then Some(user) else None
    case WidgetRowsRemoved(left, reselect, user) => if reselect && left > 0 then Some(user) else None
    case _ => None
  }

  predicate Interrupts(g: Greeter, l: Label) {
    ToManual(g, l) || ToList(g, l) || Begins(g, l).Some?
  }

  /** The auto-login button and a timer with a user to log in. */
  predicate AutologinBegins(c: Config, l: Label) {
    l.AutologinClicked? || (l.AutologinExpired? && c.autologinUser != "")
  }

  function CancelAsked(interrupts: bool, inAuthentication: bool): seq<Request> {
    if interrupts && inAuthentication then [CancelAuthentication] else []
  }

  function BeginAsked(user: Option<string>, autologinUser: string): seq<Request> {
    if user.Some? && user.value != autologinUser then [Authenticate(user.value)] else []
  }

  /** All a step asks for: a running authentication is cancelled by every reset and
      every new user, who is then authenticated unless it is the auto-login user; that
      one only the button and the timer authenticate; text answers a prompt; and
      success, nothing else, starts the session. */
  function Asks(g: Greeter, step: Step): seq<Request> {
    CancelAsked(Interrupts(g, step.l), step.inAuthentication)
    + BeginAsked(Begins(g, step.l), g.config.autologinUser)
    + match step.l
      case AuthComplete(success, _) => if success then [StartSession] else []
      case TextConfirmed(text) => if g.screen.inputMode.PromptRespond? then [Respond(text)] else []
      case AutologinClicked => [Authenticate(g.config.autologinUser)]
      case AutologinExpired => if g.config.autologinUser == "" then [] else [Authenticate(g.config.autologinUser)]
      case _ => []
  }

  lemma StartRequests(g: Greeter, user: string, inAuthentication: bool)
    ensures StartAuthUser(g, user, inAuthentication).log.requests
         == g.log.requests + (CancelAsked(true, inAuthentication) + BeginAsked(Some(user), g.config.autologinUser))
  {
    assert g.log.requests + [] == g.log.requests;
  }

  lemma ResetToListRequests(g: Greeter, user: string, inAuthentication: bool)
    ensures
      var begins := if g.rows.widget > 0 then Some(user) else None;
      ResetUIForUserListLogin(g, user, inAuthentication).log.requests
      == g.log.requests + (CancelAsked(true, inAuthentication) + BeginAsked(begins, g.config.autologinUser))
  {
    var shown := ListShown(g, inAuthentication);
    assert shown.log.requests == g.log.requests + CancelAsked(true, inAuthentication);
    StartRequests(shown, user, false);
  }

  lemma ResetToManualRequests(g: Greeter, inAuthentication: bool)
    ensures ResetUIForManualLogin(g, inAuthentication).log.requests
         == g.log.requests + CancelAsked(true, inAuthentication)
  {
  }

  lemma ButtonRequests(g: Greeter, step: Step)
    requires step.l.ButtonClicked? || step.l.ReAuthClicked?
    ensures Apply(g, step).log.requests == g.log.requests + Asks(g, step)
  {
    if ToManual(g, step.l) {
      ResetToManualRequests(g, step.inAuthentication);
      assert Apply(g, step) == ResetUIForManualLogin(g, step.inAuthentication);
    } else if ToList(g, step.l) {
      ResetToListRequests(g, step.l.user, step.inAuthentication);
      assert Apply(g, step) == ResetUIForUserListLogin(g, step.l.user, step.inAuthentication);
    } else {
      assert Apply(g, step) == g;
    }
  }

  lemma SlotRequests(g: Greeter, step: Step)
    requires !step.l.ModelRowsInserted? && !step.l.ModelRowsRemoved?
             && !step.l.WidgetRowsInserted? && !step.l.WidgetRowsRemoved?
    ensures Apply(g, step).log.requests == g.log.requests + Asks(g, step)
  {
    var l, b := step.l, step.inAuthentication;
    if l.UserActivated? || l.TextConfirmed? {
      StartRequests(g, if l.UserActivated? then l.user else l.text, b);
    } else if l.AuthComplete? {
      StartRequests(g.(log := g.log.(restarts := g.log.restarts + 1)), l.authUser, b);
    } else if l.ButtonClicked? || l.ReAuthClicked? {
      ButtonRequests(g, step);
    }
  }

  lemma RowsRequests(g: Greeter, step: Step)
    requires step.l.ModelRowsInserted? || step.l.ModelRowsRemoved?
             || step.l.WidgetRowsInserted? || step.l.WidgetRowsRemoved?
    ensures Apply(g, step).log.requests == g.log.requests + Asks(g, step)
  {
    var l, b := step.l, step.inAuthentication;
    if l.ModelRowsRemoved? {
      ResetToManualRequests(g.(rows := g.rows.(model := l.left, wasEmpty := g.rows.wasEmpty || l.left == 0)), b);
    } else if l.WidgetRowsInserted? {
      StartRequests(g.(rows := g.rows.(widget := l.count)), l.user, b);
    } else if l.WidgetRowsRemoved? {
      var r := g.(rows := g.rows.(widget := l.left));
      StartRequests(r, l.user, b);
      ResetToListRequests(r, l.user, b);
    }
  }

  lemma StepRequests(g: Greeter, step: Step)
    ensures Apply(g, step).log.requests == g.log.requests + Asks(g, step)
  {
    if step.l.ModelRowsInserted? || step.l.ModelRowsRemoved? || step.l.WidgetRowsInserted? || step.l.WidgetRowsRemoved? {
      RowsRequests(g, step);
    } else {
      SlotRequests(g, step);
    }
  }

  /** What a step does to the screen.  Turning to a user puts that user's name up, with
      the button for the auto-login user and the edit for anybody else; a reset that
      turns to nobody clears the name; only resets change the mode; in manual mode the
      way back is offered if there is a list to go back to; and a prompt, which in manual
      mode puts up the name it is for, is what the edit answers until the next manual
      reset. */
  predicate Becomes(g: Greeter, l: Label, t': Screen) {
    var t, resets := g.screen, ToManual(g, l) || ToList(g, l);
    && t'.loginMode == (if ToManual(g, l) then ManualMode else if ToList(g, l) then UserListMode else t.loginMode)
    && t'.inputMode == (if ToManual(g, l) then UserName else if l.ShowPrompt? then PromptRespond else t.inputMode)
    && (ToManual(g, l) ==> (t'.buttonVisible <==> g.config.showUserList && g.rows.widget > 0))
    && match Begins(g, l)
       case Some(user) =>
         t'.userLabel == user && t'.inputs == if user == g.config.autologinUser then AUTO_LOGIN else PROMPT_EDIT
       case None =>
         && t'.userLabel == (if resets then ""
                             else if l.ShowPrompt? && t.loginMode.ManualMode? then l.authUser
                             else t.userLabel)
         && t'.inputs == if resets then PROMPT_EDIT
                         else if l.AuthComplete? && !l.success then RE_AUTHENTICATION
                         else t.inputs
  }

  lemma UserScreen(g: Greeter, step: Step)
    requires step.l.UserActivated? || step.l.TextConfirmed? || step.l.AuthComplete?
    ensures Becomes(g, step.l, Apply(g, step).screen)
  {
  }

  lemma ButtonScreen(g: Greeter, step: Step)
    requires Inv(g) && (step.l.ButtonClicked? || step.l.ReAuthClicked?)
    ensures Becomes(g, step.l, Apply(g, step).screen)
  {
    var l, b := step.l, step.inAuthentication;
    if ToManual(g, l) {
      assert Apply(g, step) == ResetUIForManualLogin(g, b);
    } else {
      assert ToList(g, l) && Apply(g, step) == ResetUIForUserListLogin(g, l.user, b);
    }
  }

  lemma RowsScreen(g: Greeter, step: Step)
    requires step.l.ModelRowsInserted? || step.l.ModelRowsRemoved? || step.l.WidgetRowsInserted?
    ensures Becomes(g, step.l, Apply(g, step).screen)
  {
  }

  lemma RowsGoneScreen(g: Greeter, step: Step)
    requires step.l.WidgetRowsRemoved?
    ensures Becomes(g, step.l, Apply(g, step).screen)
  {
  }

  lemma StepScreen(g: Greeter, step: Step)
    requires Inv(g)
    ensures Becomes(g, step.l, Apply(g, step).screen)
  {
    var l := step.l;
    if l.UserActivated? || l.TextConfirmed? || l.AuthComplete? {
      UserScreen(g, step);
    } else if l.ButtonClicked? || l.ReAuthClicked? {
      ButtonScreen(g, step);
    } else if l.WidgetRowsRemoved? {
      RowsGoneScreen(g, step);
    } else if l.ModelRowsInserted? || l.ModelRowsRemoved? || l.WidgetRowsInserted? {
      RowsScreen(g, step);
    }
  }

  /** The window comes up in manual mode if and only if the list is hidden, which takes
      the permission for manual login, or empty. */
  lemma FirstScreen(settings: Option<Settings>, autologinUser: string, model: nat, widget: nat, user: string)
    ensures
      var g := Init(Read(settings, autologinUser), model, widget, user);
      && (g.screen.loginMode.ManualMode? <==>
          model == 0 || (settings.Some? && settings.value.allowManualLogin && settings.value.hideUserList))
      && (g.config.allowManual <==> settings.None? || settings.value.allowManualLogin)
      && g.config.autologinUser == autologinUser
  {
  }

  /** The returning user of a hidden list comes back to see the button when the first
      user appears, unless already authenticated. */
  lemma ButtonOnFirstUser(g: Greeter, count: nat, authenticated: bool, b: bool)
    ensures
      var g' := Apply(g, Step(ModelRowsInserted(count, authenticated), b));
      && g'.rows.model == count && g'.log == g.log
      && (g'.screen.buttonVisible <==>
          g.screen.buttonVisible
          || (count == 1 && g.config.showUserList && g.screen.loginMode.ManualMode? && !authenticated))
  {
  }

  // Sessions and replies, over whole runs.

  function Successes(ls: seq<Step>): nat {
    if ls == [] then 0
    else (if ls[0].l.AuthComplete? && ls[0].l.success then 1 else 0) + Successes(ls[1..])
  }

  /** The texts confirmed while the edit was answering a prompt. */
  function Answers(g: Greeter, ls: seq<Step>): seq<string>
    decreases |ls|
  {
    if ls == [] then []
    else
      (if ls[0].l.TextConfirmed? && g.screen.inputMode.PromptRespond? then [ls[0].l.text] else [])
      + Answers(Apply(g, ls[0]), ls[1..])
  }

  function Replies(requests: seq<Request>): seq<string> {
    if requests == [] then []
    else (if requests[0].Respond? then [requests[0].text] else []) + Replies(requests[1..])
  }

  lemma {:induction false} RepliesConcat(a: seq<Request>, b: seq<Request>)
    ensures Replies(a + b) == Replies(a) + Replies(b)
    decreases |a|
  {
    if a == [] {
      assert a + b == b;
    } else {
      assert (a + b)[0] == a[0] && (a + b)[1..] == a[1..] + b;
      RepliesConcat(a[1..], b);
      AnswersAssociate(if a[0].Respond? then [a[0].text] else [], Replies(a[1..]), Replies(b));
    }
  }

  lemma AnswersAssociate(a: seq<string>, b: seq<string>, c: seq<string>)
    ensures a + (b + c) == a + b + c
  {
  }

  /** One session start at each successful completion, and none otherwise. */
  lemma AsksForSession(g: Greeter, step: Step)
    ensures multiset(Asks(g, step))[StartSession] == if step.l.AuthComplete? && step.l.success then 1 else 0
  {
  }

  lemma {:induction false} AsksReplies(g: Greeter, step: Step)
    ensures Replies(Asks(g, step))
         == if step.l.TextConfirmed? && g.screen.inputMode.PromptRespond? then [step.l.text] else []
  {
    var cancel := CancelAsked(Interrupts(g, step.l), step.inAuthentication);
    var begin := BeginAsked(Begins(g, step.l), g.config.autologinUser);
    var asks := Asks(g, step);
    var last := asks[|cancel + begin|..];
    assert asks == (cancel + begin) + last;
    RepliesConcat(cancel + begin, last);
    RepliesConcat(cancel, begin);
    RepliesOfOne(cancel);
    RepliesOfOne(begin);
    RepliesOfOne(last);
  }

  lemma {:induction false} RepliesOfOne(requests: seq<Request>)
    requires |requests| <= 1
    ensures Replies(requests) == if requests != [] && requests[0].Respond? then [requests[0].text] else []
  {
    if requests != [] {
      assert requests[1..] == [];
    }
  }

  /** In every run the session is started exactly as often as an authentication
      succeeds: a failure never starts one. */
  lemma {:induction false} SessionPerSuccess(g: Greeter, ls: seq<Step>)
    ensures multiset(After(g, ls).log.requests)[StartSession]
         == multiset(g.log.requests)[StartSession] + Successes(ls)
    decreases |ls|
  {
    if ls != [] {
      StepRequests(g, ls[0]);
      AsksForSession(g, ls[0]);
      SessionPerSuccess(Apply(g, ls[0]), ls[1..]);
    }
  }

  /** In every run the replies sent are, in order, exactly the texts confirmed while a
      prompt was being answered. */
  lemma {:induction false} RepliesAreTheTexts(g: Greeter, ls: seq<Step>)
    ensures Replies(After(g, ls).log.requests) == Replies(g.log.requests) + Answers(g, ls)
    decreases |ls|
  {
    if ls == [] {
      assert Replies(g.log.requests) + [] == Replies(g.log.requests);
    } else {
      StepRequests(g, ls[0]);
      RepliesConcat(g.log.requests, Asks(g, ls[0]));
      AsksReplies(g, ls[0]);
      RepliesAreTheTexts(Apply(g, ls[0]), ls[1..]);
      AnswersAssociate(Replies(g.log.requests), Replies(Asks(g, ls[0])), Answers(Apply(g, ls[0]), ls[1..]));
    }
  }

  // ----- exactly when a failure restarts

  predicate BeginsAt(g: Greeter, ls: seq<Step>, k: nat)
    requires k < |ls|
  {
    Begins(After(g, ls[..k]), ls[k].l).Some?
  }

  /** Step j showed a prompt, and no user was turned to since. */
  predicate PromptSince(g: Greeter, ls: seq<Step>, j: nat) {
    j < |ls| && ls[j].l.ShowPrompt? && forall k :: j < k < |ls| ==> !BeginsAt(g, ls, k)
  }

  lemma {:induction false} AfterSnoc(g: Greeter, ls: seq<Step>)
    requires ls != []
    ensures After(g, ls) == Apply(After(g, ls[..|ls| - 1]), ls[|ls| - 1])
    decreases |ls|
  {
    if |ls| > 1 {
      AfterSnoc(Apply(g, ls[0]), ls[1..]);
      assert ls[1..][..|ls| - 2] == ls[..|ls| - 1][1..];
    } else {
      assert ls[1..] == [] && ls[..0] == [];
    }
  }

  lemma PromptSinceSnoc(g: Greeter, ls: seq<Step>, j: nat)
    requires j < |ls|
    ensures
      var n := |ls| - 1;
      PromptSince(g, ls, j) <==>
        if j == n then ls[n].l.ShowPrompt? else PromptSince(g, ls[..n], j) && !BeginsAt(g, ls, n)
  {
    var n := |ls| - 1;
    forall k | j < k < n
      ensures BeginsAt(g, ls[..n], k) == BeginsAt(g, ls, k)
    {
      assert ls[..n][..k] == ls[..k];
    }
  }

  lemma PromptedStep(g: Greeter, step: Step)
    ensures Apply(g, step).log.havePrompted <==>
            step.l.ShowPrompt? || (g.log.havePrompted && Begins(g, step.l).None?)
    ensures Apply(g, step).log.restarts
         == g.log.restarts + if step.l.AuthComplete? && !step.l.success && g.log.havePrompted then 1 else 0
    ensures Apply(g, step).log.prompts == g.log.prompts + if step.l.ShowPrompt? then 1 else 0
  {
  }

  /** The window remembers a prompt exactly until it turns to a user. */
  lemma {:induction false} RemembersIff(g: Greeter, ls: seq<Step>)
    requires !g.log.havePrompted
    ensures After(g, ls).log.havePrompted <==> exists j :: PromptSince(g, ls, j)
    decreases |ls|
  {
    if ls != [] {
      var n := |ls| - 1;
      RemembersIff(g, ls[..n]);
      AfterSnoc(g, ls);
      PromptedStep(After(g, ls[..n]), ls[n]);
      forall j | 0 <= j < |ls|
        ensures PromptSince(g, ls, j) <==>
                if j == n then ls[n].l.ShowPrompt? else PromptSince(g, ls[..n], j) && !BeginsAt(g, ls, n)
      {
        PromptSinceSnoc(g, ls, j);
      }
      if ls[n].l.ShowPrompt? {
        assert PromptSince(g, ls, n);
      } else if After(g, ls[..n]).log.havePrompted && !BeginsAt(g, ls, n) {
        var j :| PromptSince(g, ls[..n], j);
        assert PromptSince(g, ls, j);
      }
    }
  }

  /** The rows after a step. */
  function RowsAfter(rows: Rows, l: Label): Rows {
    match l
    case ModelRowsInserted(count, _) => rows.(model := count)
    case ModelRowsRemoved(left) => rows.(model := left, wasEmpty := rows.wasEmpty || left == 0)
    case WidgetRowsInserted(count, _, _) => rows.(widget := count)
    case WidgetRowsRemoved(left, _, _) => rows.(widget := left)
    case _ => rows
  }

  lemma RowsFollow(g: Greeter, step: Step)
    ensures Apply(g, step).rows == RowsAfter(g.rows, step.l)
  {
  }

  /** The window's model was without rows if and only if it began so or some removal
      left none. */
  lemma {:induction false} WasEmptyIff(g: Greeter, ls: seq<Step>)
    ensures After(g, ls).rows.wasEmpty <==>
            g.rows.wasEmpty || exists step :: step in ls && step.l.ModelRowsRemoved? && step.l.left == 0
    decreases |ls|
  {
    if ls != [] {
      RowsFollow(g, ls[0]);
      WasEmptyIff(Apply(g, ls[0]), ls[1..]);
      assert forall step :: step in ls <==> step == ls[0] || step in ls[1..];
    }
  }

  /** In a run from a fresh window a step restarts the authentication by itself if and
      only if it is a failure and a prompt was shown since a user was last turned to. */
  lemma {:induction false} RestartsIff(g: Greeter, ls: seq<Step>, step: Step)
    requires !g.log.havePrompted
    ensures After(g, ls + [step]).log.restarts > After(g, ls).log.restarts <==>
            step.l.AuthComplete? && !step.l.success && exists j :: PromptSince(g, ls, j)
  {
    AfterSnoc(g, ls + [step]);
    assert (ls + [step])[..|ls|] == ls;
    PromptedStep(After(g, ls), step);
    RemembersIff(g, ls);
  }

  /** In every run the window asks for the auto-login user's authentication if and
      only if the auto-login button was clicked or the timer expired for a user. */
  lemma {:induction false} AutologinUserAuthenticatedIff(g: Greeter, ls: seq<Step>)
    requires Authenticate(g.config.autologinUser) !in g.log.requests
    ensures Authenticate(g.config.autologinUser) in After(g, ls).log.requests <==>
            exists step :: step in ls && AutologinBegins(g.config, step.l)
    decreases |ls|
  {
    if ls != [] {
      var g' := Apply(g, ls[0]);
      StepRequests(g, ls[0]);
      ConfigKept(g, ls[0]);
      if AutologinBegins(g.config, ls[0].l) {
        assert Authenticate(g.config.autologinUser) in Asks(g, ls[0]);
        RequestsGrow(g', ls[1..]);
        assert ls[0] in ls;
      } else {
        assert Authenticate(g.config.autologinUser) !in Asks(g, ls[0]);
        AutologinUserAuthenticatedIff(g', ls[1..]);
        assert forall step :: step in ls <==> step == ls[0] || step in ls[1..];
      }
    }
  }

  lemma ConfigKept(g: Greeter, step: Step)
    ensures Apply(g, step).config == g.config
  {
  }

  lemma {:induction false} RequestsGrow(g: Greeter, ls: seq<Step>)
    ensures forall r :: r in g.log.requests ==> r in After(g, ls).log.requests
    decreases |ls|
  {
    if ls != [] {
      StepRequests(g, ls[0]);
      RequestsGrow(Apply(g, ls[0]), ls[1..]);
    }
  }

  /** Those two begin an authentication without cancelling one that is going on; every
      other step that begins one cancels it first. */
  lemma CancelsFirstIff(g: Greeter, step: Step)
    requires step.inAuthentication
    requires exists user :: Authenticate(user) in Asks(g, step)
    ensures Asks(g, step)[0] == CancelAuthentication <==> !AutologinBegins(g.config, step.l)
  {
  }

  /** As long as no prompt is shown since the last start, nothing restarts. */
  lemma {:induction false} NoRestartSpin(g: Greeter, ls: seq<Step>)
    requires !g.log.havePrompted
    requires forall step :: step in ls ==> !step.l.ShowPrompt?
    ensures After(g, ls).log.restarts == g.log.restarts && !After(g, ls).log.havePrompted
    decreases |ls|
  {
    if ls != [] {
      assert ls[0] in ls;
      RestartForgetsPrompt(g, ls[0]);
      NoRestartSpin(Apply(g, ls[0]), ls[1..]);
    }
  }
}
