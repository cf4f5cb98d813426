/** Small vocabulary shared by the other modules. */
module Prelude {

  datatype Option<+T> = None | Some(value: T) {
    function GetOr(default: T): T {
      match this
      case Some(v) => v
      case None => default
    }
  }

  /** The characters Go's strings.TrimSpace removes. */
  predicate IsSpace(c: char) {
    var n := c as int;
    || 9 <= n <= 13 || n == 0x20 || n == 0x85 || n == 0xA0 || n == 0x1680
    || 0x2000 <= n <= 0x200A || n == 0x2028 || n == 0x2029 || n == 0x202F || n == 0x205F || n == 0x3000
  }

  function TrimLeft(s: string): (t: string)
    ensures |t| <= |s|
    ensures t == [] || !IsSpace(t[0])
    ensures s != [] && !IsSpace(s[0]) ==> t == s
  {
    if s == [] || !IsSpace(s[0]) then s else TrimLeft(s[1..])
  }

  function TrimRight(s: string): (t: string)
    ensures t <= s
    ensures t == [] || !IsSpace(t[|t| - 1])
    ensures s != [] && !IsSpace(s[|s| - 1]) ==> t == s
  {
    if s == [] || !IsSpace(s[|s| - 1]) then s else TrimRight(s[..|s| - 1])
  }

  function TrimSpace(s: string): (t: string)
    ensures TrimSpaceFixed(t)
    ensures TrimSpaceFixed(s) ==> t == s
  {
    TrimRight(TrimLeft(s))
  }

  /** s starts and ends with something other than white space. */
  predicate TrimSpaceFixed(s: string) {
    s == [] || (!IsSpace(s[0]) && !IsSpace(s[|s| - 1]))
  }

  /** Trimming twice is trimming once. */
  lemma TrimIdempotent(s: string)
    ensures TrimSpace(TrimSpace(s)) == TrimSpace(s)
  {
  }

  /** Unicode category Cc. */
  predicate IsControl(c: char) {
    c as int < 0x20 || 0x7F <= c as int <= 0x9F
  }

  predicate HasControlCharacter(s: string) {
    exists i :: 0 <= i < |s| && IsControl(s[i])
  }

  /** The state after the first n inputs of a run. */
  function RunOf<S, E>(step: (S, E) -> S, start: S, inputs: seq<E>, n: nat): S
    requires n <= |inputs|
  {
    if n == 0 then start else step(RunOf(step, start, inputs, n - 1), inputs[n - 1])
  }

  /** What the start has and every step keeps holds after every run. */
  lemma {:induction false} RunKeeps<S(!new), E(!new)>(step: (S, E) -> S, kept: S -> bool, start: S, inputs: seq<E>, n: nat)
    requires n <= |inputs| && kept(start)
    requires forall s, e :: kept(s) ==> kept(step(s, e))
    ensures kept(RunOf(step, start, inputs, n))
  {
    if n > 0 { RunKeeps(step, kept, start, inputs, n - 1); }
  }

  /** The same for a chain of states. */
  lemma {:induction false} ChainKeeps<S(!new)>(step: (S, S) -> bool, kept: S -> bool, states: seq<S>, n: nat)
    requires n < |states| && kept(states[0])
    requires forall s, t :: kept(s) && step(s, t) ==> kept(t)
    requires forall i :: 0 <= i < n ==> step(states[i], states[i + 1])
    ensures kept(states[n])
  {
    if n > 0 { ChainKeeps(step, kept, states, n - 1); }
  }
}
