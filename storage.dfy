/** Persistence of ptvsd sessions across extension restarts: a list of records kept in VS Code's
    global-state memento under one key. Before `initStorage` there is no memento and every
    operation is a no-op (reads see an empty list). */
module Storage {
  import opened Wrappers

  /** `savedAt` is milliseconds since the epoch. */
  datatype PersistedSession = PersistedSession(port: int, ip: string, workspacePath: string, savedAt: int)

  /** The records whose port differs from `port`, in their original order. */
  function WithoutPort(s: seq<PersistedSession>, port: int): (r: seq<PersistedSession>)
    ensures forall x :: x in r <==> x in s && x.port != port
    ensures |r| <= |s|
  {
    if s == [] then []
    else if s[0].port == port then WithoutPort(s[1..], port)
    else [s[0]] + WithoutPort(s[1..], port)
  }

  /** The list `saveSession(record)` stores: any record for the same port replaced by
      `record`, which goes last. */
  function Saved(s: seq<PersistedSession>, record: PersistedSession): (r: seq<PersistedSession>)
    ensures |r| > 0 && r[|r| - 1] == record
    ensures forall i | 0 <= i < |r| - 1 :: r[i].port != record.port
    ensures forall x | x in s && x.port != record.port :: x in r
    ensures forall x | x in r :: x in s || x == record
  {
    WithoutPort(s, record.port) + [record]
  }

  /** Removing a port works record by record: a record is kept exactly when its port differs,
      and the kept records stay in their original relative order (with their multiplicity). */
  lemma {:induction false} WithoutPortAppend(a: seq<PersistedSession>, b: seq<PersistedSession>, port: int)
    ensures WithoutPort(a + b, port) == WithoutPort(a, port) + WithoutPort(b, port)
    ensures forall x :: WithoutPort([x], port) == if x.port == port then [] else [x]
  {
    if a == [] {
      assert a + b == b;
    } else {
      assert (a + b)[0] == a[0];
      assert (a + b)[1..] == a[1..] + b;
      WithoutPortAppend(a[1..], b, port);
    }
  }

  /** A list without a record for the port is kept as it is. */
  lemma {:induction false} WithoutAbsentPort(s: seq<PersistedSession>, port: int)
    requires forall x | x in s :: x.port != port
    ensures WithoutPort(s, port) == s
  {
    if s != [] {
      assert forall x | x in s[1..] :: x in s;
      WithoutAbsentPort(s[1..], port);
    }
  }

  /** Saving into a list made of two parts keeps the other-port records of both parts in their
      order, followed by the new record. */
  lemma SavedAppend(a: seq<PersistedSession>, b: seq<PersistedSession>, record: PersistedSession)
    ensures Saved(a + b, record) == WithoutPort(a, record.port) + WithoutPort(b, record.port) + [record]
  {
    WithoutPortAppend(a, b, record.port);
  }

  /** Saving a record for a port not yet stored appends it to the list. */
  lemma SavedNewPort(s: seq<PersistedSession>, record: PersistedSession)
    requires forall x | x in s :: x.port != record.port
    ensures Saved(s, record) == s + [record]
  {
    WithoutAbsentPort(s, record.port);
  }

  predicate PortsUnique(s: seq<PersistedSession>) {
    forall i, j | 0 <= i < j < |s| :: s[i].port != s[j].port
  }

  /** Saving keeps at most one record per port. */
  lemma SavedKeepsPortsUnique(s: seq<PersistedSession>, record: PersistedSession)
    requires PortsUnique(s)
    ensures PortsUnique(Saved(s, record))
  {
    WithoutPortKeepsUnique(s, record.port);
  }

  lemma {:induction false} WithoutPortKeepsUnique(s: seq<PersistedSession>, port: int)
    requires PortsUnique(s)
    ensures PortsUnique(WithoutPort(s, port))
  {
    if s != [] {
      WithoutPortKeepsUnique(s[1..], port);
      if s[0].port != port {
        var rest := WithoutPort(s[1..], port);
        var r := [s[0]] + rest;
        forall i, j | 0 <= i < j < |r| ensures r[i].port != r[j].port {
          assert r[j] == rest[j - 1];
          if i == 0 {
            assert rest[j - 1] in s[1..];
            var k :| 0 <= k < |s[1..]| && s[1..][k] == rest[j - 1];
            assert s[k + 1] == rest[j - 1];
          } else {
            assert r[i] == rest[i - 1];
          }
        }
      }
    }
  }

  /** The position of the record `getLastSession` returns: the greatest `savedAt`, the
      earliest stored one among equals (the first element after a stable sort by descending
      `savedAt`). */
  function MostRecentIndex(s: seq<PersistedSession>): (k: nat)
    requires s != []
    ensures k < |s|
    ensures forall j | 0 <= j < |s| :: s[j].savedAt <= s[k].savedAt
    ensures forall j | 0 <= j < k :: s[j].savedAt < s[k].savedAt
  {
    if |s| == 1 then 0
    else
      var prev := MostRecentIndex(s[..|s| - 1]);
      assert forall j | 0 <= j < |s| - 1 :: s[..|s| - 1][j] == s[j];
      if s[|s| - 1].savedAt > s[prev].savedAt then |s| - 1 else prev
  }

  /** `getLastSession()`'s result for the stored list `s`. */
  function MostRecent(s: seq<PersistedSession>): (r: Option<PersistedSession>)
    ensures r.Some? <==> s != []
    ensures r.Some? ==> r.value in s && forall x | x in s :: x.savedAt <= r.value.savedAt
  {
    if s == [] then None else Some(s[MostRecentIndex(s)])
  }

  /** A record saved later than every stored one is the one `getLastSession` returns next. */
  lemma SavedIsMostRecent(s: seq<PersistedSession>, record: PersistedSession)
    requires forall x | x in s :: x.savedAt < record.savedAt
    ensures MostRecent(Saved(s, record)) == Some(record)
  {
    var r := Saved(s, record);
    if |r| > 1 {
      assert r[..|r| - 1] == WithoutPort(s, record.port);
      assert r[MostRecentIndex(r[..|r| - 1])] in s;
    }
  }

  class SessionStore {
    /** The list stored in the memento; None before `initStorage`. */
    var globalState: Option<seq<PersistedSession>>

    constructor ()
      ensures globalState == None
    {
      globalState := None;
    }

    /** `initStorage(context)`: attaches the memento, which holds `stored`. */
    method InitStorage(stored: seq<PersistedSession>)
      modifies this
      ensures globalState == Some(stored)
    {
      globalState := Some(stored);
    }

    /** `getAllPersistedSessions()` */
    function AllPersistedSessions(): seq<PersistedSession>
      reads this
    {
      globalState.GetOr([])
    }

    /** `saveSession(record)` */
    method SaveSession(record: PersistedSession)
      modifies this
      ensures old(globalState).None? ==> globalState == None
      ensures old(globalState).Some? ==> globalState == Some(Saved(old(globalState).value, record))
    {
      if globalState.None? {
        return;
      }
      var filtered := WithoutPort(globalState.value, record.port);
      globalState := Some(filtered + [record]);
    }

    /** `getLastSession()` */
    method GetLastSession() returns (r: Option<PersistedSession>)
      ensures r == MostRecent(AllPersistedSessions())
    {
      var sessions := AllPersistedSessions();
      if |sessions| == 0 {
        return None;
      }
      var best := 0;
      var i := 1;
      while i < |sessions|
        invariant 1 <= i <= |sessions|
        invariant best == MostRecentIndex(sessions[..i])
      {
        assert sessions[..i + 1][..i] == sessions[..i];
        if sessions[i].savedAt > sessions[best].savedAt {
          best := i;
        }
        i := i + 1;
      }
      assert sessions[..i] == sessions;
      return Some(sessions[best]);
    }

    /** `removePersistedSession(port)` */
    method RemovePersistedSession(port: int)
      modifies this
      ensures old(globalState).None? ==> globalState == None
      ensures old(globalState).Some? ==> globalState == Some(WithoutPort(old(globalState).value, port))
    {
      if globalState.None? {
        return;
      }
      globalState := Some(WithoutPort(globalState.value, port));
    }

    /** `clearSession()` */
    method ClearSession()
      modifies this
      ensures old(globalState).None? ==> globalState == None
      ensures old(globalState).Some? ==> globalState == Some([])
    {
      if globalState.None? {
        return;
      }
      globalState := Some([]);
    }
  }
}
