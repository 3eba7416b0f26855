/** The unlock dialog: when to unlock, when to start over, when to ask first. */
module ScreenSaverDialog {

  datatype Dialog = Dialog(havePrompt: bool, reAuthShown: bool, editShown: bool)

  /** What the dialog asks of the proxy and of the screen saver. */
  datatype Request = CancelAuthentication | Authenticate | AuthenticationPassed

  const FRESH: Dialog := Dialog(false, false, true)

  function StartAuth(d: Dialog, inAuthentication: bool): (Dialog, seq<Request>) {
    (Dialog(false, false, true),
     (if inAuthentication then [CancelAuthentication] else []) + [Authenticate])
  }

  function OnPrompt(d: Dialog): Dialog {
    d.(havePrompt := true)
  }

  function OnComplete(d: Dialog, authRes: bool, inAuthentication: bool): (Dialog, seq<Request>) {
    if authRes then (d, [AuthenticationPassed])
    else if !d.havePrompt then (d.(reAuthShown := true, editShown := false), [])
    else StartAuth(d, inAuthentication)
  }

  class ScreenSaverDialog {
    var m_havePrompt: bool
    var reAuthVisible: bool
    var promptEditVisible: bool
    var requests: seq<Request>

    function State(): Dialog
      reads this
    {
      Dialog(m_havePrompt, reAuthVisible, promptEditVisible)
    }

    constructor ()
      ensures State() == FRESH && requests == []
    {
      m_havePrompt, reAuthVisible, promptEditVisible, requests := false, false, true, [];
    }

    method StartAuthentication(inAuthentication: bool)
      modifies this
      ensures State() == StartAuth(old(State()), inAuthentication).0
      ensures requests == old(requests) + StartAuth(old(State()), inAuthentication).1
    {
      promptEditVisible := true;
      m_havePrompt := false;
      if inAuthentication {
        requests := requests + [CancelAuthentication];
      }
      requests := requests + [Authenticate];
      reAuthVisible := false;
      promptEditVisible := true;
    }

    method SlotShowPrompt()
      modifies this`m_havePrompt
      ensures State() == OnPrompt(old(State()))
    {
      m_havePrompt := true;
    }

    method SlotAuthenticationComplete(authRes: bool, inAuthentication: bool)
      modifies this
      ensures State() == OnComplete(old(State()), authRes, inAuthentication).0
      ensures requests == old(requests) + OnComplete(old(State()), authRes, inAuthentication).1
    {
      if !authRes {
        if !m_havePrompt {
          promptEditVisible := false;
          reAuthVisible := true;
          assert requests + [] == requests;
        } else {
          StartAuthentication(inAuthentication);
        }
      } else {
        requests := requests + [AuthenticationPassed];
      }
    }
  }

  // ----- restarts

  datatype Input =
    | PromptShown
    | Completed(authRes: bool, inAuthentication: bool)
    | ReAuthClicked(inAuthentication: bool)

  function React(d: Dialog, i: Input): (Dialog, seq<Request>) {
    match i
    case PromptShown => (OnPrompt(d), [])
    case Completed(authRes, inAuthentication) => OnComplete(d, authRes, inAuthentication)
    case ReAuthClicked(inAuthentication) => StartAuth(d, inAuthentication)
  }

  function After(inputs: seq<Input>): Dialog {
    if inputs == [] then FRESH
    else React(After(inputs[..|inputs| - 1]), inputs[|inputs| - 1]).0
  }

  /** Input number k restarts the authentication without the user's doing. */
  predicate AutoRestart(inputs: seq<Input>, k: nat)
    requires k < |inputs|
  {
    inputs[k].Completed? && Authenticate in React(After(inputs[..k]), inputs[k]).1
  }

  lemma {:induction false} PromptRemembered(inputs: seq<Input>)
    returns (k: int)
    requires After(inputs).havePrompt
    ensures 0 <= k < |inputs| && inputs[k].PromptShown?
    ensures forall j :: k < j < |inputs| ==> !AutoRestart(inputs, j) && !inputs[j].ReAuthClicked?
    decreases |inputs|
  {
    var n := |inputs| - 1;
    var before := inputs[..n];
    if inputs[n].PromptShown? {
      return n;
    }
    k := PromptRemembered(before);
    forall j | k < j < |inputs|
      ensures !AutoRestart(inputs, j) && !inputs[j].ReAuthClicked?
    {
      assert inputs[..n][..n] == inputs[..n];
      if j < n {
        assert inputs[..j] == before[..j];
        assert !AutoRestart(before, j);
      }
    }
  }

  /** Before every automatic restart, and since the restart before it if there was
      one, a prompt was shown; so a service that fails without prompting cannot
      make the dialog spin. */
  lemma NoRestartSpin(inputs: seq<Input>, second: nat)
    requires second < |inputs| && AutoRestart(inputs, second)
    ensures exists k :: 0 <= k < second && inputs[k].PromptShown?
              && forall j :: k < j < second ==> !AutoRestart(inputs, j)
  {
    var before := inputs[..second];
    var k := PromptRemembered(before);
    forall j | k < j < second
      ensures !AutoRestart(inputs, j)
    {
      assert inputs[..j] == before[..j];
      assert !AutoRestart(before, j);
    }
    assert inputs[k].PromptShown?;
  }

  function Restarts(inputs: seq<Input>): nat {
    if inputs == [] then 0
    else Restarts(inputs[..|inputs| - 1]) + (if AutoRestart(inputs, |inputs| - 1) then 1 else 0)
  }

  function Prompts(inputs: seq<Input>): nat {
    if inputs == [] then 0
    else Prompts(inputs[..|inputs| - 1]) + (if inputs[|inputs| - 1].PromptShown? then 1 else 0)
  }

  /** Automatic restarts never outnumber the prompts shown. */
  lemma {:induction false} RestartsBounded(inputs: seq<Input>)
    ensures Restarts(inputs) + (if After(inputs).havePrompt then 1 else 0) <= Prompts(inputs)
    decreases |inputs|
  {
    if inputs != [] {
      RestartsBounded(inputs[..|inputs| - 1]);
    }
  }

  function Completions(inputs: seq<Input>, authRes: bool): nat {
    if inputs == [] then 0
    else
      var n := |inputs| - 1;
      Completions(inputs[..n], authRes) + (if inputs[n].Completed? && inputs[n].authRes == authRes then 1 else 0)
  }

  function Unlocks(inputs: seq<Input>): nat {
    if inputs == [] then 0
    else
      var n := |inputs| - 1;
      Unlocks(inputs[..n]) + (if AuthenticationPassed in React(After(inputs[..n]), inputs[n]).1 then 1 else 0)
  }

  /** How often a failure left the dialog waiting for the re-authentication button. */
  function Waits(inputs: seq<Input>): nat {
    if inputs == [] then 0
    else
      var n := |inputs| - 1;
      var d := After(inputs[..n]);
      Waits(inputs[..n]) + (if inputs[n].Completed? && React(d, inputs[n]).1 == [] then 1 else 0)
  }

  /** Over any history every completion has exactly one consequence: the true ones
      unlock, the false ones restart or wait for the user; nothing else unlocks.  And
      the button is there exactly when the edit is not. */
  lemma {:induction false} CompletionsAccountedFor(inputs: seq<Input>)
    ensures Unlocks(inputs) == Completions(inputs, true)
    ensures Restarts(inputs) + Waits(inputs) == Completions(inputs, false)
    ensures After(inputs).editShown != After(inputs).reAuthShown
    decreases |inputs|
  {
    if inputs != [] {
      CompletionsAccountedFor(inputs[..|inputs| - 1]);
    }
  }

  // ----- exactly when

  /** Input number k starts an authentication, for whatever reason. */
  predicate Starts(inputs: seq<Input>, k: nat)
    requires k < |inputs|
  {
    inputs[k].ReAuthClicked? || AutoRestart(inputs, k)
  }

  /** Input number j happened, and no start since. */
  predicate Since(inputs: seq<Input>, j: nat)
    requires j < |inputs|
  {
    forall k :: j < k < |inputs| ==> !Starts(inputs, k)
  }

  predicate PromptSince(inputs: seq<Input>, j: nat) {
    j < |inputs| && inputs[j].PromptShown? && Since(inputs, j)
  }

  /** A failure that was not answered by a restart, and no start since. */
  predicate FailureSince(inputs: seq<Input>, j: nat) {
    j < |inputs| && inputs[j].Completed? && !inputs[j].authRes && !AutoRestart(inputs, j) && Since(inputs, j)
  }

  lemma StartsInPrefix(inputs: seq<Input>, n: nat, k: nat)
    requires k < n <= |inputs|
    ensures Starts(inputs[..n], k) == Starts(inputs, k) && AutoRestart(inputs[..n], k) == AutoRestart(inputs, k)
  {
    assert inputs[..n][..k] == inputs[..k];
  }

  lemma SinceExtended(inputs: seq<Input>, j: nat)
    requires j < |inputs|
    ensures
      var n := |inputs| - 1;
      Since(inputs, j) <==> j == n || (Since(inputs[..n], j) && !Starts(inputs, n))
  {
    var n := |inputs| - 1;
    forall k | j < k < n
      ensures Starts(inputs[..n], k) == Starts(inputs, k)
    {
      StartsInPrefix(inputs, n, k);
    }
  }

  /** The dialog remembers a prompt exactly as long as nothing is started after it. */
  lemma {:induction false} RemembersIff(inputs: seq<Input>)
    ensures After(inputs).havePrompt <==> exists j :: PromptSince(inputs, j)
    decreases |inputs|
  {
    if inputs != [] {
      var n := |inputs| - 1;
      var before := inputs[..n];
      RemembersIff(before);
      forall j | 0 <= j < |inputs|
        ensures PromptSince(inputs, j) <==>
                if j == n then inputs[n].PromptShown? else PromptSince(before, j) && !Starts(inputs, n)
      {
        SinceExtended(inputs, j);
      }
      if inputs[n].PromptShown? {
        assert PromptSince(inputs, n);
      } else if After(before).havePrompt && !Starts(inputs, n) {
        var j :| PromptSince(before, j);
        assert PromptSince(inputs, j);
      }
    }
  }

  /** A completion restarts the authentication if and only if it is a failure and a
      prompt was shown since the last start: a wrong password is asked for again, a
      failure nobody was asked about is not. */
  lemma AutoRestartIff(inputs: seq<Input>, k: nat)
    requires k < |inputs|
    ensures AutoRestart(inputs, k) <==>
            inputs[k].Completed? && !inputs[k].authRes && exists j :: PromptSince(inputs[..k], j)
  {
    RemembersIff(inputs[..k]);
  }

  /** The re-authentication button is there exactly after a failure that was not
      answered by a restart, until something is started. */
  lemma {:induction false} ButtonShownIff(inputs: seq<Input>)
    ensures After(inputs).reAuthShown <==> exists j :: FailureSince(inputs, j)
    decreases |inputs|
  {
    if inputs != [] {
      var n := |inputs| - 1;
      var before := inputs[..n];
      ButtonShownIff(before);
      forall j | 0 <= j < |inputs|
        ensures FailureSince(inputs, j) <==>
                if j == n then inputs[n].Completed? && !inputs[n].authRes && !AutoRestart(inputs, n)
                else FailureSince(before, j) && !Starts(inputs, n)
      {
        SinceExtended(inputs, j);
        if j < n {
          StartsInPrefix(inputs, n, j);
        }
      }
      if inputs[n].Completed? && !inputs[n].authRes && !AutoRestart(inputs, n) {
        assert FailureSince(inputs, n);
      } else if After(before).reAuthShown && !Starts(inputs, n) {
        var j :| FailureSince(before, j);
        assert FailureSince(inputs, j);
      }
    }
  }

  /** A start cancels exactly an authentication that is going on, before it begins
      another; besides that the dialog only ever asks to unlock. */
  lemma RequestsExactly(inputs: seq<Input>, k: nat)
    requires k < |inputs|
    ensures React(After(inputs[..k]), inputs[k]).1 ==
            if Starts(inputs, k) then
              (if inputs[k].inAuthentication then [CancelAuthentication] else []) + [Authenticate]
            else if inputs[k].Completed? && inputs[k].authRes then [AuthenticationPassed]
            else []
  {
  }
}
