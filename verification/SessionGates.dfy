/**
 Per-session gates, created and deleted on the fly. A gate is a one-slot channel and a reference count; the
 registry maps a session's key to its gate. Every registry access is one step under the mutex, and sending to or
 receiving from a gate's channel is one step outside it.
 */
module SessionGates {

  type Key = string

  /** A request: waiting for its gate's slot, owning it, or on its way to give up its reference. */
  datatype Pc = Waiting | Owning | Leaving | Gone

  datatype Caller = Caller(key: Key, gate: nat, pc: Pc)

  /** `refs` and `full` describe every gate ever created. */
  datatype Sys = Sys(gates: map<Key, nat>, refs: seq<int>, full: seq<bool>, callers: seq<Caller>)

  datatype Label = Arrives(key: Key) | Acquires(c: nat) | Cancels(c: nat) | Unlocks(c: nat) | Releases(c: nat)

  const Empty := Sys(map[], [], [], [])

  /** Finds or makes the key's gate and counts a reference. */
  function Enter(s: Sys, key: Key): Sys {
    if key in s.gates && s.gates[key] < |s.refs| then
      var g := s.gates[key];
      s.(refs := s.refs[g := s.refs[g] + 1], callers := s.callers + [Caller(key, g, Waiting)])
    else
      var g := |s.refs|;
      s.(gates := s.gates[key := g], refs := s.refs + [1], full := s.full + [false],
         callers := s.callers + [Caller(key, g, Waiting)])
  }

  function SetPc(s: Sys, c: nat, pc: Pc): Sys
    requires c < |s.callers|
  {
    s.(callers := s.callers[c := s.callers[c].(pc := pc)])
  }

  /** Gives up a reference, unless the registry has meanwhile got another gate for the key. */
  function Release(s: Sys, key: Key, g: nat): Sys {
    if !(key in s.gates) || s.gates[key] != g || g >= |s.refs| then s
    else
      var left := s.refs[g] - 1;
      s.(refs := s.refs[g := left], gates := if left == 0 then s.gates - {key} else s.gates)
  }

  predicate At(s: Sys, c: nat, pc: Pc) {
    c < |s.callers| && s.callers[c].pc == pc
  }

  function Step(s: Sys, l: Label): Sys {
    match l
    case Arrives(key) => Enter(s, key)
    case Acquires(c) =>
      if !At(s, c, Waiting) || s.callers[c].gate >= |s.full| || s.full[s.callers[c].gate] then s
      else SetPc(s.(full := s.full[s.callers[c].gate := true]), c, Owning)
    case Cancels(c) => if !At(s, c, Waiting) then s else SetPc(s, c, Leaving)
    case Unlocks(c) =>
      if !At(s, c, Owning) || s.callers[c].gate >= |s.full| then s
      else SetPc(s.(full := s.full[s.callers[c].gate := false]), c, Leaving)
    case Releases(c) =>
      if !At(s, c, Leaving) then s else SetPc(Release(s, s.callers[c].key, s.callers[c].gate), c, Gone)
  }

  function Exec(s: Sys, labels: seq<Label>): Sys
    decreases |labels|
  {
    if labels == [] then s else Step(Exec(s, labels[..|labels| - 1]), labels[|labels| - 1])
  }

  /** How many callers still hold a reference to gate `g`. */
  function Holders(callers: seq<Caller>, g: nat): nat {
    if callers == [] then 0
    else Holders(callers[..|callers| - 1], g) + if callers[|callers| - 1].gate == g && callers[|callers| - 1].pc != Gone then 1 else 0
  }

  /** Keys have gates of their own, each with someone counting on it. */
  ghost predicate GatesOk(s: Sys) {
    && |s.full| == |s.refs|
    && (forall k :: k in s.gates ==> s.gates[k] < |s.refs| && s.refs[s.gates[k]] > 0)
    && forall j, k :: j in s.gates && k in s.gates && s.gates[j] == s.gates[k] ==> j == k
  }

  /** A caller that has not gone finds its own gate under its key. */
  ghost predicate CallersOk(s: Sys) {
    && (forall c :: 0 <= c < |s.callers| ==> s.callers[c].gate < |s.refs|)
    && forall c :: 0 <= c < |s.callers| && s.callers[c].pc != Gone ==> Registered(s, s.callers[c])
  }

  ghost predicate CountsOk(s: Sys) {
    forall g :: 0 <= g < |s.refs| ==> s.refs[g] == Holders(s.callers, g)
  }

  /** A gate's slot is full exactly while one caller owns it. */
  ghost predicate OwnersOk(s: Sys) {
    && (forall c :: 0 <= c < |s.callers| && s.callers[c].pc == Owning ==> s.callers[c].gate < |s.full| && s.full[s.callers[c].gate])
    && (forall b, c :: 0 <= b < c < |s.callers| && s.callers[b].pc == Owning && s.callers[c].pc == Owning ==>
          s.callers[b].gate != s.callers[c].gate)
    && forall g :: 0 <= g < |s.full| && s.full[g] ==> Owned(s, g)
  }

  ghost predicate Inv(s: Sys) {
    GatesOk(s) && CallersOk(s) && CountsOk(s) && OwnersOk(s)
  }

  predicate Registered(s: Sys, caller: Caller) {
    caller.key in s.gates && s.gates[caller.key] == caller.gate
  }

  predicate OwnerOf(s: Sys, c: nat, g: nat) {
    c < |s.callers| && s.callers[c].pc == Owning && s.callers[c].gate == g
  }

  ghost predicate Owned(s: Sys, g: nat) {
    exists c: nat :: OwnerOf(s, c, g)
  }

  // ----- counting holders -----

  lemma {:induction false} HoldersSet(callers: seq<Caller>, c: nat, pc: Pc, g: nat)
    requires c < |callers| && callers[c].pc != Gone
    ensures Holders(callers[c := callers[c].(pc := pc)], g)
            == Holders(callers, g) - if pc == Gone && callers[c].gate == g then 1 else 0
  {
    var n := |callers| - 1;
    var changed := callers[c := callers[c].(pc := pc)];
    if c < n {
      assert changed[..n] == callers[..n][c := callers[c].(pc := pc)];
      HoldersSet(callers[..n], c, pc, g);
    } else {
      assert changed[..n] == callers[..n];
    }
  }

  lemma {:induction false} HoldersPositive(callers: seq<Caller>, c: nat)
    requires c < |callers| && callers[c].pc != Gone
    ensures Holders(callers, callers[c].gate) > 0
  {
    if c < |callers| - 1 {
      HoldersPositive(callers[..|callers| - 1], c);
    }
  }

  lemma {:induction false} NoHolders(callers: seq<Caller>, g: nat)
    requires forall c :: 0 <= c < |callers| ==> callers[c].gate != g
    ensures Holders(callers, g) == 0
  {
    if callers != [] {
      NoHolders(callers[..|callers| - 1], g);
    }
  }

  lemma HoldersAppend(callers: seq<Caller>, caller: Caller, g: nat)
    ensures Holders(callers + [caller], g) == Holders(callers, g) + if caller.gate == g && caller.pc != Gone then 1 else 0
  {
    assert (callers + [caller])[..|callers|] == callers;
  }

  // ----- each step -----

  lemma EnterCounts(s: Sys, key: Key)
    requires Inv(s)
    ensures var s' := Enter(s, key); forall g :: 0 <= g < |s'.refs| ==> s'.refs[g] == Holders(s'.callers, g)
  {
    var s' := Enter(s, key);
    var caller := s'.callers[|s.callers|];
    forall g | 0 <= g < |s'.refs| ensures s'.refs[g] == Holders(s'.callers, g) {
      HoldersAppend(s.callers, caller, g);
      if g == |s.refs| {
        NoHolders(s.callers, g);
      }
    }
  }

  lemma EnterRegistered(s: Sys, key: Key)
    requires Inv(s)
    ensures var s' := Enter(s, key); forall c :: 0 <= c < |s'.callers| && s'.callers[c].pc != Gone ==> Registered(s', s'.callers[c])
  {
    var s' := Enter(s, key);
    forall c | 0 <= c < |s'.callers| && s'.callers[c].pc != Gone ensures Registered(s', s'.callers[c]) {
      if c < |s.callers| {
        assert Registered(s, s.callers[c]);
      }
    }
  }

  lemma EnterOwners(s: Sys, key: Key)
    requires Inv(s)
    ensures OwnersOk(Enter(s, key))
  {
    var s' := Enter(s, key);
    KeepOwners(s, s');
    assert forall c :: 0 <= c < |s.callers| ==> s'.callers[c] == s.callers[c];
  }

  lemma EnterInv(s: Sys, key: Key)
    requires Inv(s)
    ensures Inv(Enter(s, key))
  {
    EnterCounts(s, key);
    EnterRegistered(s, key);
    EnterOwners(s, key);
  }

  /** Slots stay owned when their owners stay. */
  lemma KeepOwners(s: Sys, s': Sys)
    requires Inv(s) && |s.full| <= |s'.full| && |s.callers| <= |s'.callers|
    requires forall g :: 0 <= g < |s'.full| && s'.full[g] ==> g < |s.full| && s.full[g]
    requires forall c :: 0 <= c < |s.callers| && s.callers[c].pc == Owning ==> s'.callers[c] == s.callers[c]
    ensures forall g :: 0 <= g < |s'.full| && s'.full[g] ==> Owned(s', g)
  {
    forall g | 0 <= g < |s'.full| && s'.full[g] ensures Owned(s', g) {
      assert Owned(s, g);
      var c: nat :| OwnerOf(s, c, g);
      assert OwnerOf(s', c, g);
    }
  }

  /** A caller that stays keeps all counts. */
  lemma SamePc(s: Sys, s': Sys, c: nat, pc: Pc)
    requires Inv(s) && c < |s.callers| && s.callers[c].pc != Gone && pc != Gone
    requires s'.refs == s.refs && s'.gates == s.gates && s'.callers == s.callers[c := s.callers[c].(pc := pc)]
    ensures forall g :: 0 <= g < |s'.refs| ==> s'.refs[g] == Holders(s'.callers, g)
    ensures forall b :: 0 <= b < |s'.callers| && s'.callers[b].pc != Gone ==> Registered(s', s'.callers[b])
  {
    forall g | 0 <= g < |s'.refs| ensures s'.refs[g] == Holders(s'.callers, g) {
      HoldersSet(s.callers, c, pc, g);
    }
    forall b | 0 <= b < |s'.callers| && s'.callers[b].pc != Gone ensures Registered(s', s'.callers[b]) {
      assert Registered(s, s.callers[b]);
    }
  }

  lemma AcquireInv(s: Sys, c: nat)
    requires Inv(s)
    ensures Inv(Step(s, Acquires(c)))
  {
    var s' := Step(s, Acquires(c));
    if s' != s {
      SamePc(s, s', c, Owning);
      var g := s.callers[c].gate;
      assert forall b :: 0 <= b < |s.callers| && s.callers[b].pc == Owning ==> s.callers[b].gate != g;
      forall h | 0 <= h < |s'.full| && s'.full[h] ensures Owned(s', h) {
        if h == g {
          assert OwnerOf(s', c, g);
        } else {
          var b: nat :| OwnerOf(s, b, h);
          assert OwnerOf(s', b, h);
        }
      }
    }
  }

  lemma CancelInv(s: Sys, c: nat)
    requires Inv(s)
    ensures Inv(Step(s, Cancels(c)))
  {
    var s' := Step(s, Cancels(c));
    if s' != s {
      SamePc(s, s', c, Leaving);
      KeepOwners(s, s');
    }
  }

  lemma UnlockInv(s: Sys, c: nat)
    requires Inv(s)
    ensures Inv(Step(s, Unlocks(c)))
  {
    var s' := Step(s, Unlocks(c));
    if s' != s {
      SamePc(s, s', c, Leaving);
      var g := s.callers[c].gate;
      assert forall b :: 0 <= b < |s.callers| && b != c && s.callers[b].pc == Owning ==> s.callers[b].gate != g;
      forall h | 0 <= h < |s'.full| && s'.full[h] ensures Owned(s', h) {
        var b: nat :| OwnerOf(s, b, h);
        assert OwnerOf(s', b, h);
      }
    }
  }

  lemma ReleaseInv(s: Sys, c: nat)
    requires Inv(s)
    ensures Inv(Step(s, Releases(c)))
  {
    var s' := Step(s, Releases(c));
    if At(s, c, Leaving) {
      var caller := s.callers[c];
      var g := caller.gate;
      assert Registered(s, caller);
      forall h | 0 <= h < |s'.refs| ensures s'.refs[h] == Holders(s'.callers, h) {
        HoldersSet(s.callers, c, Gone, h);
      }
      ReleaseRegistered(s, c);
      KeepOwners(s, s');
    }
  }

  /** A gate that someone else still counts on stays registered. */
  lemma ReleaseRegistered(s: Sys, c: nat)
    requires Inv(s) && At(s, c, Leaving)
    requires CountsOk(Step(s, Releases(c)))
    ensures var s' := Step(s, Releases(c));
            forall b :: 0 <= b < |s'.callers| && s'.callers[b].pc != Gone ==> Registered(s', s'.callers[b])
  {
    var s' := Step(s, Releases(c));
    assert Registered(s, s.callers[c]);
    forall b | 0 <= b < |s'.callers| && s'.callers[b].pc != Gone ensures Registered(s', s'.callers[b]) {
      assert Registered(s, s.callers[b]);
      if s.callers[b].key == s.callers[c].key {
        HoldersPositive(s'.callers, b);
      }
    }
  }

  lemma StepInv(s: Sys, l: Label)
    requires Inv(s)
    ensures Inv(Step(s, l))
  {
    match l
    case Arrives(key) => EnterInv(s, key);
    case Acquires(c) => AcquireInv(s, c);
    case Cancels(c) => CancelInv(s, c);
    case Unlocks(c) => UnlockInv(s, c);
    case Releases(c) => ReleaseInv(s, c);
  }

  lemma {:induction false} ExecInv(s: Sys, labels: seq<Label>)
    requires Inv(s)
    ensures Inv(Exec(s, labels))
    decreases |labels|
  {
    if labels != [] {
      ExecInv(s, labels[..|labels| - 1]);
      StepInv(Exec(s, labels[..|labels| - 1]), labels[|labels| - 1]);
    }
  }

  // ----- main results -----

  /** At most one request owns a session at any time, although gates come and go. */
  lemma OneOwnerPerSession(labels: seq<Label>, b: nat, c: nat)
    requires var s := Exec(Empty, labels); At(s, b, Owning) && At(s, c, Owning) && s.callers[b].key == s.callers[c].key
    ensures b == c
  {
    ExecInv(Empty, labels);
    var s := Exec(Empty, labels);
    assert Registered(s, s.callers[b]) && Registered(s, s.callers[c]);
  }

  /** Everyone who still counts uses the key's registered gate, so releasing never meets a foreign one. */
  lemma GateIsStable(labels: seq<Label>, c: nat)
    requires var s := Exec(Empty, labels); c < |s.callers| && s.callers[c].pc != Gone
    ensures Registered(Exec(Empty, labels), Exec(Empty, labels).callers[c])
  {
    ExecInv(Empty, labels);
  }

  /** A key is registered exactly while someone owns, waits for or is leaving its gate. */
  lemma RegisteredWhileUsed(labels: seq<Label>, key: Key)
    ensures var s := Exec(Empty, labels);
            key in s.gates <==> exists c :: 0 <= c < |s.callers| && s.callers[c].pc != Gone && s.callers[c].key == key
  {
    ExecInv(Empty, labels);
    var s := Exec(Empty, labels);
    forall c | 0 <= c < |s.callers| && s.callers[c].pc != Gone ensures s.callers[c].key in s.gates {
      assert Registered(s, s.callers[c]);
    }
    if key in s.gates {
      var c := FindHolder(s.callers, s.gates[key]);
      assert Registered(s, s.callers[c]);
    }
  }

  lemma {:induction false} FindHolder(callers: seq<Caller>, g: nat) returns (c: nat)
    requires Holders(callers, g) > 0
    ensures c < |callers| && callers[c].gate == g && callers[c].pc != Gone
  {
    var last := callers[|callers| - 1];
    if last.gate == g && last.pc != Gone {
      c := |callers| - 1;
    } else {
      c := FindHolder(callers[..|callers| - 1], g);
    }
  }

  /** A waiting request is only ever held up by a present owner of the same session. */
  lemma WaitingMeansOwned(labels: seq<Label>, c: nat)
    requires At(Exec(Empty, labels), c, Waiting)
    ensures At(Exec(Empty, labels + [Acquires(c)]), c, Owning) || HeldUp(Exec(Empty, labels), Exec(Empty, labels).callers[c].key)
  {
    ExecInv(Empty, labels);
    var s := Exec(Empty, labels);
    assert (labels + [Acquires(c)])[..|labels|] == labels;
    HeldUpOrFree(s, c);
  }

  ghost predicate HeldUp(s: Sys, key: Key) {
    exists b: nat :: At(s, b, Owning) && s.callers[b].key == key
  }

  lemma HeldUpOrFree(s: Sys, c: nat)
    requires Inv(s) && At(s, c, Waiting)
    ensures At(Step(s, Acquires(c)), c, Owning) || HeldUp(s, s.callers[c].key)
  {
    var g := s.callers[c].gate;
    assert Registered(s, s.callers[c]);
    if s.full[g] {
      var b: nat :| OwnerOf(s, b, g);
      assert Registered(s, s.callers[b]);
      assert At(s, b, Owning);
    }
  }

  // ----- the registry as an object -----

  class Gate {
    var refs: int
    var full: bool

    constructor ()
      ensures refs == 0 && !full
    {
      refs, full := 0, false;
    }
  }

  class Registry {
    var gates: map<Key, Gate>

    constructor ()
      ensures gates == map[]
    {
      gates := map[];
    }

    /** The object in the transition system's terms; `all` lists every gate ever created. */
    ghost predicate Shows(s: Sys, all: seq<Gate>)
      reads this, all
    {
      && |all| == |s.refs| == |s.full|
      && (forall i, j :: 0 <= i < j < |all| ==> all[i] != all[j])
      && gates.Keys == s.gates.Keys
      && (forall k :: k in gates ==> s.gates[k] < |all| && gates[k] == all[s.gates[k]])
      && forall g :: 0 <= g < |all| ==> all[g].refs == s.refs[g] && all[g].full == s.full[g]
    }

    /** The section under the mutex that every request runs first: it is the system's entry step. */
    method Lock(key: Key, ghost s: Sys, ghost all: seq<Gate>) returns (gate: Gate, ghost all': seq<Gate>)
      requires Shows(s, all)
      modifies this, all
      ensures Shows(Enter(s, key), all')
      ensures key in gates && gates[key] == gate
      ensures all <= all' && forall g :: 0 <= g < |all'| && g >= |all| ==> fresh(all'[g])
    {
      all' := all;
      if key in gates {
        gate := gates[key];
      } else {
        gate := new Gate();
        gates := gates[key := gate];
        all' := all + [gate];
      }
      gate.refs := gate.refs + 1;
    }

    /** Giving up a reference is the system's release step. */
    method ReleaseSessionGate(key: Key, gate: Gate, ghost s: Sys, ghost all: seq<Gate>, ghost g: nat)
      requires Shows(s, all) && g < |all| && all[g] == gate
      modifies this, gate
      ensures Shows(Release(s, key, g), all)
    {
      if key !in gates || gates[key] != gate {
        return;
      }
      gate.refs := gate.refs - 1;
      if gate.refs == 0 {
        gates := gates - {key};
      }
    }
  }
}
