/** The user list: a widget whose rows follow a filtered model of the users. */
module UserListWidget {

  datatype UserInfo = UserInfo(
    name: string, realName: string, session: string, uid: nat, backgroundPath: string,
    hasMessage: bool, imagePath: string, loggedIn: bool)

  // ----- the filter

  predicate Accepted(hidden: seq<string>, u: UserInfo) {
    u.name !in hidden
  }

  /** The rows of the filtered model. */
  function Filtered(hidden: seq<string>, users: seq<UserInfo>): seq<UserInfo> {
    if users == [] then []
    else (if Accepted(hidden, users[0]) then [users[0]] else []) + Filtered(hidden, users[1..])
  }

  class FilterUserProxyModel {
    var m_filterUsers: seq<string>
    var source: seq<UserInfo>

    constructor ()
      ensures m_filterUsers == [] && source == []
    {
      m_filterUsers, source := [], [];
    }

    method SetFilterUsers(users: seq<string>)
      modifies this`m_filterUsers
      ensures m_filterUsers == users
    {
      m_filterUsers := users;
    }

    method FilterAcceptsRow(row: nat) returns (accepted: bool)
      requires row < |source|
      ensures accepted <==> source[row].name !in m_filterUsers
    {
      if source[row].name in m_filterUsers {
        return false;
      } else {
        return true;
      }
    }

    function Rows(): seq<UserInfo>
      reads this
    {
      Filtered(m_filterUsers, source)
    }
  }

  lemma {:induction false} FilteredConcat(hidden: seq<string>, a: seq<UserInfo>, b: seq<UserInfo>)
    ensures Filtered(hidden, a + b) == Filtered(hidden, a) + Filtered(hidden, b)
    decreases |a|
  {
    if a == [] {
      assert a + b == b;
    } else {
      assert (a + b)[0] == a[0] && (a + b)[1..] == a[1..] + b;
      FilteredConcat(hidden, a[1..], b);
    }
  }

  /** The filtered model lists exactly the users whose name is not hidden, and all of
      them in their order if none is. */
  lemma {:induction false} FilteredAreAccepted(hidden: seq<string>, users: seq<UserInfo>)
    ensures forall u :: u in Filtered(hidden, users) <==> u in users && u.name !in hidden
    ensures (forall u :: u in users ==> u.name !in hidden) ==> Filtered(hidden, users) == users
    decreases |users|
  {
    if users != [] {
      FilteredAreAccepted(hidden, users[1..]);
      assert users == [users[0]] + users[1..];
    }
  }

  lemma {:induction false} RowNotHidden(hidden: seq<string>, users: seq<UserInfo>, i: nat)
    requires i < |Filtered(hidden, users)|
    ensures Filtered(hidden, users)[i].name !in hidden
  {
    FilteredAreAccepted(hidden, users);
    assert Filtered(hidden, users)[i] in Filtered(hidden, users);
  }

  // ----- what the widget's slots do to its rows

  /** Every row from `first` to `last` is filled from the model's row `first`. */
  function Inserted(rows: seq<UserInfo>, model: seq<UserInfo>, first: nat, last: nat): seq<UserInfo>
    requires first <= last < |model| && first <= |rows|
  {
    rows[..first] + seq(last - first + 1, _ => model[first]) + rows[first..]
  }

  function Removed(rows: seq<UserInfo>, first: nat, last: nat): seq<UserInfo>
    requires first <= last < |rows|
  {
    rows[..first] + rows[last + 1..]
  }

  class UserListWidget {
    var rows: seq<UserInfo>

    constructor ()
      ensures rows == []
    {
      rows := [];
    }

    method AppendItem(u: UserInfo)
      modifies this
      ensures rows == old(rows) + [u]
    {
      rows := rows + [u];
    }

    method InsertItem(row: nat, u: UserInfo)
      requires row <= |rows|
      modifies this
      ensures rows == old(rows)[..row] + [u] + old(rows)[row..]
    {
      rows := rows[..row] + [u] + rows[row..];
    }

    method TakeItem(row: nat)
      requires row < |rows|
      modifies this
      ensures rows == old(rows)[..row] + old(rows)[row + 1..]
    {
      rows := rows[..row] + rows[row + 1..];
    }

    /** Appends every row of the filtered model; the second look at the hidden
        users never skips one. */
    method LoadUserList(model: FilterUserProxyModel, hidden: seq<string>)
      modifies this, model`m_filterUsers
      ensures model.m_filterUsers == hidden && model.source == old(model.source)
      ensures rows == old(rows) + model.Rows()
    {
      model.SetFilterUsers(hidden);
      var shown := model.Rows();
      var i := 0;
      while i < |shown|
        invariant 0 <= i <= |shown|
        invariant model.m_filterUsers == hidden && model.source == old(model.source)
        invariant rows == old(rows) + shown[..i]
      {
        var userInfo := shown[i];
        RowNotHidden(hidden, model.source, i);
        i := i + 1;
        if userInfo.name in hidden {
          assert false;
        }
        AppendItem(userInfo);
        assert shown[..i] == shown[..i - 1] + [userInfo];
      }
      assert shown[..i] == shown;
    }

    method SlotRowsInserted(model: seq<UserInfo>, first: nat, last: nat)
      requires first <= last < |model| && first <= |rows|
      modifies this
      ensures rows == Inserted(old(rows), model, first, last)
    {
      ghost var before := rows;
      ghost var copies: seq<UserInfo> := [];
      var i := first;
      assert rows == before[..first] + copies + before[first..];
      while i <= last
        invariant first <= i <= last + 1
        invariant copies == seq(i - first, _ => model[first])
        invariant rows == before[..first] + copies + before[first..]
      {
        var userInfo := model[first];
        assert rows[..i] == before[..first] + copies && rows[i..] == before[first..];
        InsertItem(i, userInfo);
        copies := copies + [userInfo];
        i := i + 1;
      }
    }

    method SlotRowsRemoved(first: nat, last: nat)
      requires first <= last < |rows|
      modifies this
      ensures rows == Removed(old(rows), first, last)
    {
      ghost var before := rows;
      var i: int := last;
      while i >= first
        invariant first - 1 <= i <= last
        invariant rows == before[..i + 1] + before[last + 1..]
      {
        TakeItem(i);
        i := i - 1;
      }
    }
  }

  /** The icon of the first user of that name, or the empty path. */
  method GetIconByUserName(model: seq<UserInfo>, userName: string) returns (iconPath: string)
    ensures (forall u :: u in model ==> u.name != userName) ==> iconPath == ""
    ensures forall k :: (0 <= k < |model| && model[k].name == userName
              && (forall j :: 0 <= j < k ==> model[j].name != userName)) ==> iconPath == model[k].imagePath
  {
    iconPath := "";
    var i := 0;
    while i < |model|
      invariant 0 <= i <= |model|
      invariant forall j :: 0 <= j < i ==> model[j].name != userName
      invariant iconPath == ""
    {
      if model[i].name == userName {
        iconPath := model[i].imagePath;
        break;
      }
      i := i + 1;
    }
  }

  // ----- mirroring

  /** The rows after an insertion, one at a time. */
  lemma InsertedAt(rows: seq<UserInfo>, model: seq<UserInfo>, first: nat, last: nat, k: nat)
    requires first <= last < |model| && first <= |rows|
    requires k < |rows| + (last - first + 1)
    ensures |Inserted(rows, model, first, last)| == |rows| + (last - first + 1)
    ensures Inserted(rows, model, first, last)[k]
         == if k < first then rows[k] else if k <= last then model[first] else rows[k - (last - first + 1)]
  {
  }

  predicate Alike(users: seq<UserInfo>) {
    forall k :: 0 <= k < |users| ==> users[k] == users[0]
  }

  /** Filling the inserted rows from the first one gives the model if and only if
      the inserted rows are all alike; one row always is. */
  lemma InsertedMirrorsIff(rows: seq<UserInfo>, shown: seq<UserInfo>, first: nat, model: seq<UserInfo>)
    requires shown != [] && first <= |rows| && model == rows[..first] + shown + rows[first..]
    ensures Inserted(rows, model, first, first + |shown| - 1) == model <==> Alike(shown)
  {
    var last := first + |shown| - 1;
    var r := Inserted(rows, model, first, last);
    assert model[first] == shown[0];
    if Alike(shown) {
      forall k | 0 <= k < |model|
        ensures r[k] == model[k]
      {
        InsertedAt(rows, model, first, last, k);
        assert first <= k <= last ==> model[k] == shown[k - first];
      }
    } else {
      var j :| 0 <= j < |shown| && shown[j] != shown[0];
      InsertedAt(rows, model, first, last, first + j);
      assert model[first + j] == shown[j];
    }
  }

  /** A change of the unfiltered users: some are inserted, or a range goes. */
  datatype Change = Insert(at: nat, users: seq<UserInfo>) | Remove(from: nat, to: nat)

  predicate Applicable(users: seq<UserInfo>, c: Change) {
    match c
    case Insert(at, _) => at <= |users|
    case Remove(from, to) => from <= to <= |users|
  }

  function Changed(users: seq<UserInfo>, c: Change): seq<UserInfo>
    requires Applicable(users, c)
  {
    match c
    case Insert(at, more) => users[..at] + more + users[at..]
    case Remove(from, to) => users[..from] + users[to..]
  }

  /** The row of the filtered model that position `i` of the users maps to. */
  function MappedRow(hidden: seq<string>, users: seq<UserInfo>, i: nat): nat
    requires i <= |users|
  {
    |Filtered(hidden, users[..i])|
  }

  /** Filtering commutes with inserting, at the mapped row. */
  lemma {:induction false} InsertedAtMappedRow(hidden: seq<string>, users: seq<UserInfo>, at: nat, more: seq<UserInfo>)
    requires at <= |users|
    ensures
      var rows, shown := Filtered(hidden, users), Filtered(hidden, more);
      var row := MappedRow(hidden, users, at);
      && row <= |rows|
      && Filtered(hidden, users[..at] + more + users[at..]) == rows[..row] + shown + rows[row..]
  {
    assert users == users[..at] + users[at..];
    FilteredConcat(hidden, users[..at], users[at..]);
    FilteredConcat(hidden, users[..at], more);
    FilteredConcat(hidden, users[..at] + more, users[at..]);
  }

  /** Filtering commutes with removing a range, between the mapped rows. */
  lemma {:induction false} RemovedAtMappedRows(hidden: seq<string>, users: seq<UserInfo>, from: nat, to: nat)
    requires from <= to <= |users|
    ensures
      var rows := Filtered(hidden, users);
      var first, end := MappedRow(hidden, users, from), MappedRow(hidden, users, to);
      && first <= end <= |rows|
      && Filtered(hidden, users[..from] + users[to..]) == rows[..first] + rows[end..]
  {
    var before, gone, after := users[..from], users[from..to], users[to..];
    assert users[..to] == before + gone && users == users[..to] + after;
    FilteredConcat(hidden, before, gone);
    FilteredConcat(hidden, users[..to], after);
    FilteredConcat(hidden, before, after);
  }

  /** What the widget does about a change.  The filtered model reports the rows
      that appeared or went; nothing when none did.  It always keeps as many rows
      as the filtered model has. */
  function Followed(hidden: seq<string>, users: seq<UserInfo>, rows: seq<UserInfo>, c: Change): (r: seq<UserInfo>)
    requires Applicable(users, c) && |rows| == |Filtered(hidden, users)|
    ensures |r| == |Filtered(hidden, Changed(users, c))|
  {
    match c
    case Insert(at, more) => FollowedInsertion(hidden, users, rows, at, more)
    case Remove(from, to) => FollowedRemoval(hidden, users, rows, from, to)
  }

  function FollowedInsertion(hidden: seq<string>, users: seq<UserInfo>, rows: seq<UserInfo>,
                             at: nat, more: seq<UserInfo>): (r: seq<UserInfo>)
    requires at <= |users| && |rows| == |Filtered(hidden, users)|
    ensures |r| == |Filtered(hidden, users[..at] + more + users[at..])|
  {
    InsertedAtMappedRow(hidden, users, at, more);
    var first, n := MappedRow(hidden, users, at), |Filtered(hidden, more)|;
    var model := Filtered(hidden, users[..at] + more + users[at..]);
    if n == 0 then rows else Inserted(rows, model, first, first + n - 1)
  }

  function FollowedRemoval(hidden: seq<string>, users: seq<UserInfo>, rows: seq<UserInfo>,
                           from: nat, to: nat): (r: seq<UserInfo>)
    requires from <= to <= |users| && |rows| == |Filtered(hidden, users)|
    ensures |r| == |Filtered(hidden, users[..from] + users[to..])|
  {
    RemovedAtMappedRows(hidden, users, from, to);
    var first, end := MappedRow(hidden, users, from), MappedRow(hidden, users, to);
    if first == end then rows else Removed(rows, first, end - 1)
  }

  lemma SplitAt(rows: seq<UserInfo>, n: nat)
    requires n <= |rows|
    ensures rows[..n] + rows[n..] == rows && rows[..n] + [] + rows[n..] == rows
  {
  }

  lemma {:induction false} RemovalMirrors(hidden: seq<string>, users: seq<UserInfo>, from: nat, to: nat)
    requires from <= to <= |users|
    ensures FollowedRemoval(hidden, users, Filtered(hidden, users), from, to)
         == Filtered(hidden, users[..from] + users[to..])
  {
    RemovedAtMappedRows(hidden, users, from, to);
    SplitAt(Filtered(hidden, users), MappedRow(hidden, users, from));
  }

  lemma {:induction false} InsertionMirrorsIff(hidden: seq<string>, users: seq<UserInfo>, at: nat, more: seq<UserInfo>)
    requires at <= |users|
    ensures FollowedInsertion(hidden, users, Filtered(hidden, users), at, more)
            == Filtered(hidden, users[..at] + more + users[at..])
            <==> Alike(Filtered(hidden, more))
  {
    var rows, shown, first := Filtered(hidden, users), Filtered(hidden, more), MappedRow(hidden, users, at);
    var model := Filtered(hidden, users[..at] + more + users[at..]);
    InsertedAtMappedRow(hidden, users, at, more);
    if shown == [] {
      SplitAt(rows, first);
    } else {
      InsertedMirrorsIff(rows, shown, first, model);
    }
  }

  /** The widget still mirrors the model after any removal, and after an insertion
      if and only if the users that appear with it are all alike. */
  lemma {:induction false} FollowedMirrorsIff(hidden: seq<string>, users: seq<UserInfo>, c: Change)
    requires Applicable(users, c)
    ensures Followed(hidden, users, Filtered(hidden, users), c) == Filtered(hidden, Changed(users, c))
            <==> (c.Insert? ==> Alike(Filtered(hidden, c.users)))
  {
    match c
    case Insert(at, more) => InsertionMirrorsIff(hidden, users, at, more);
    case Remove(from, to) => RemovalMirrors(hidden, users, from, to);
  }

  // ----- whole histories

  predicate OneRowInsertions(hidden: seq<string>, cs: seq<Change>) {
    forall c :: c in cs && c.Insert? ==> |Filtered(hidden, c.users)| <= 1
  }

  /** Each change of a history, oldest first, applies to the users it finds. */
  predicate AllApplicable(users: seq<UserInfo>, cs: seq<Change>)
    decreases |cs|
  {
    cs == [] || (Applicable(users, cs[0]) && AllApplicable(Changed(users, cs[0]), cs[1..]))
  }

  function AllChanged(users: seq<UserInfo>, cs: seq<Change>): seq<UserInfo>
    requires AllApplicable(users, cs)
    decreases |cs|
  {
    if cs == [] then users else AllChanged(Changed(users, cs[0]), cs[1..])
  }

  function AllFollowed(hidden: seq<string>, users: seq<UserInfo>, rows: seq<UserInfo>, cs: seq<Change>): (r: seq<UserInfo>)
    requires AllApplicable(users, cs) && |rows| == |Filtered(hidden, users)|
    ensures |r| == |Filtered(hidden, AllChanged(users, cs))|
    decreases |cs|
  {
    if cs == [] then rows
    else AllFollowed(hidden, Changed(users, cs[0]), Followed(hidden, users, rows, cs[0]), cs[1..])
  }

  /** Loaded once, the widget's rows equal the users that are not hidden, in order,
      after any history of removals and one-row insertions. */
  lemma {:induction false} Mirrors(hidden: seq<string>, users: seq<UserInfo>, cs: seq<Change>)
    requires AllApplicable(users, cs) && OneRowInsertions(hidden, cs)
    ensures AllFollowed(hidden, users, Filtered(hidden, users), cs) == Filtered(hidden, AllChanged(users, cs))
    decreases |cs|
  {
    if cs != [] {
      assert cs[0] in cs;
      FollowedMirrorsIff(hidden, users, cs[0]);
      Mirrors(hidden, Changed(users, cs[0]), cs[1..]);
    }
  }

  predicate NoneHidden(hidden: seq<string>, rows: seq<UserInfo>) {
    forall u :: u in rows ==> u.name !in hidden
  }

  lemma InsertedShowsNoHidden(hidden: seq<string>, rows: seq<UserInfo>, model: seq<UserInfo>, first: nat, last: nat)
    requires first <= last < |model| && first <= |rows| && NoneHidden(hidden, rows) && NoneHidden(hidden, model)
    ensures NoneHidden(hidden, Inserted(rows, model, first, last))
  {
    var r := Inserted(rows, model, first, last);
    forall k | 0 <= k < |r|
      ensures r[k].name !in hidden
    {
      InsertedAt(rows, model, first, last, k);
    }
  }

  lemma {:induction false} FollowedShowsNoHidden(hidden: seq<string>, users: seq<UserInfo>, rows: seq<UserInfo>, c: Change)
    requires Applicable(users, c) && |rows| == |Filtered(hidden, users)| && NoneHidden(hidden, rows)
    ensures NoneHidden(hidden, Followed(hidden, users, rows, c))
  {
    if c.Insert? {
      InsertedAtMappedRow(hidden, users, c.at, c.users);
      var first, n := MappedRow(hidden, users, c.at), |Filtered(hidden, c.users)|;
      var model := Filtered(hidden, Changed(users, c));
      FilteredAreAccepted(hidden, Changed(users, c));
      if n > 0 {
        InsertedShowsNoHidden(hidden, rows, model, first, first + n - 1);
      }
    } else {
      RemovedAtMappedRows(hidden, users, c.from, c.to);
    }
  }

  /** Whatever the history, also with insertions of several rows, no hidden user is
      ever listed, and the widget has as many rows as the filtered model. */
  lemma {:induction false} HiddenNeverListed(hidden: seq<string>, users: seq<UserInfo>, rows: seq<UserInfo>, cs: seq<Change>)
    requires AllApplicable(users, cs) && |rows| == |Filtered(hidden, users)| && NoneHidden(hidden, rows)
    ensures NoneHidden(hidden, AllFollowed(hidden, users, rows, cs))
    ensures |AllFollowed(hidden, users, rows, cs)| == |Filtered(hidden, AllChanged(users, cs))|
    decreases |cs|
  {
    if cs != [] {
      FollowedShowsNoHidden(hidden, users, rows, cs[0]);
      HiddenNeverListed(hidden, Changed(users, cs[0]), Followed(hidden, users, rows, cs[0]), cs[1..]);
    }
  }
}
