// Address matching and access checking of section 3.6 of the RISC-V
// Privileged Architecture (version 20190608), over a table of PMP entries.
// This is the rule set the boot policies' comments rely on: the
// lowest-numbered matching entry decides, an unlocked entry does not
// restrict M-mode, and an access that matches nothing succeeds in M-mode and
// fails in U-mode (when at least one entry is implemented).
module PmpMatch {
  import opened PmpEncoding
  import opened PmpDevice

  datatype Privilege = Machine | User

  datatype Access = Read | Write | Execute

  datatype Option<T> = None | Some(value: T)

  /** The address register below entry i, which bounds a TOR range from below. */
  function LowerBound(t: seq<Entry>, i: nat): bv32
    requires i < |t|
  {
    if i == 0 then 0 else t[i - 1].addr
  }

  /** Entry i of table t matches the byte address y. */
  predicate Matches(t: seq<Entry>, i: nat, y: bv32)
    requires i < |t|
  {
    match t[i].cfg.mode
    case Off => false
    case Tor => TorMatches(LowerBound(t, i), t[i].addr, y)
    case Na4 => Na4Matches(t[i].addr, y)
    case Napot => NapotMatches(t[i].addr, y)
  }

  /** The lowest-numbered entry at or above `from` that matches y. */
  function FirstMatchFrom(t: seq<Entry>, y: bv32, from: nat): (m: Option<nat>)
    requires from <= |t|
    ensures m.Some? ==> from <= m.value < |t| && Matches(t, m.value, y)
    ensures m.Some? ==> forall j :: from <= j < m.value ==> !Matches(t, j, y)
    ensures m.None? ==> forall j :: from <= j < |t| ==> !Matches(t, j, y)
    decreases |t| - from
  {
    if from == |t| then None
    else if Matches(t, from, y) then Some(from)
    else FirstMatchFrom(t, y, from + 1)
  }

  /** The entry that decides an access to y: the lowest-numbered match. */
  function FirstMatch(t: seq<Entry>, y: bv32): (m: Option<nat>)
  {
    FirstMatchFrom(t, y, 0)
  }

  predicate Permits(c: Config, a: Access) {
    match a
    case Read => c.r
    case Write => c.w
    case Execute => c.x
  }

  /** Whether an access of kind a to byte address y in privilege p succeeds. */
  predicate Allowed(t: seq<Entry>, p: Privilege, a: Access, y: bv32) {
    match FirstMatch(t, y)
    case None => p == Machine || |t| == 0
    case Some(i) => (p == Machine && t[i].cfg.lock == Unlocked) || Permits(t[i].cfg, a)
  }

  /** FirstMatch picks the lowest matching entry, and finds none only when none matches. */
  lemma FirstMatchIsLowest(t: seq<Entry>, y: bv32, i: nat)
    requires i < |t|
    ensures FirstMatch(t, y) == Some(i) <==> Matches(t, i, y) && forall j :: 0 <= j < i ==> !Matches(t, j, y)
  {
  }

  /** An entry that matches, below which nothing matches, decides the access. */
  lemma DecidedBy(t: seq<Entry>, i: nat, p: Privilege, a: Access, y: bv32)
    requires i < |t| && Matches(t, i, y)
    requires forall j :: 0 <= j < i ==> !Matches(t, j, y)
    ensures Allowed(t, p, a, y) <==> (p == Machine && t[i].cfg.lock == Unlocked) || Permits(t[i].cfg, a)
  {
    FirstMatchIsLowest(t, y, i);
  }

  /** An access that matches no entry: M-mode succeeds, U-mode fails. */
  lemma Unmatched(t: seq<Entry>, p: Privilege, a: Access, y: bv32)
    requires |t| > 0
    requires forall j :: 0 <= j < |t| ==> !Matches(t, j, y)
    ensures Allowed(t, p, a, y) <==> p == Machine
  {
  }

  /** A locked entry binds M-mode exactly as it binds U-mode. */
  lemma LockedBindsBoth(t: seq<Entry>, i: nat, a: Access, y: bv32)
    requires i < |t| && Matches(t, i, y) && t[i].cfg.lock == Locked
    requires forall j :: 0 <= j < i ==> !Matches(t, j, y)
    ensures Allowed(t, Machine, a, y) == Allowed(t, User, a, y) == Permits(t[i].cfg, a)
  {
    DecidedBy(t, i, Machine, a, y);
    DecidedBy(t, i, User, a, y);
  }

  /** Whatever the table says, U-mode is never allowed more than M-mode. */
  lemma UserNoMoreThanMachine(t: seq<Entry>, a: Access, y: bv32)
    ensures Allowed(t, User, a, y) ==> Allowed(t, Machine, a, y)
  {
  }
}
