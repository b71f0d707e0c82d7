/**
 * Authorization scopes and their encoding in the `scope` query parameter of an
 * authentication URL: the identifiers joined by single spaces.
 */
module Scopes {

  /** A permission the application asks for; `identifier` is its wire name. */
  datatype Scope = Scope(identifier: string)

  /** The scope asked for in the application-switch test. */
  const Streaming: Scope := Scope("streaming")

  /** Scope identifiers come from a fixed set of non-empty names without spaces. */
  predicate WellFormed(sc: Scope) {
    sc.identifier != [] && forall k :: 0 <= k < |sc.identifier| ==> sc.identifier[k] != ' '
  }

  /** The identifiers of `scopes` joined by single spaces. */
  function Join(scopes: seq<Scope>): (r: string)
    ensures |scopes| > 0 ==> |scopes[0].identifier| <= |r| && r[..|scopes[0].identifier|] == scopes[0].identifier
  {
    if |scopes| == 0 then ""
    else if |scopes| == 1 then scopes[0].identifier
    else scopes[0].identifier + " " + Join(scopes[1..])
  }

  /** Position of the first space in `s`, or `|s|` when it has none. */
  function SpaceIndex(s: string): (i: nat)
    ensures i <= |s|
    ensures forall j :: 0 <= j < i ==> s[j] != ' '
    ensures i < |s| ==> s[i] == ' '
  {
    if s == [] then 0
    else if s[0] == ' ' then 0
    else 1 + SpaceIndex(s[1..])
  }

  /** Reads a `scope` parameter back: the space-separated words, each taken as a scope. */
  function Split(s: string): (r: seq<Scope>)
    ensures forall k, j :: 0 <= k < |r| && 0 <= j < |r[k].identifier| ==> r[k].identifier[j] != ' '
    ensures s == [] <==> r == []
    decreases |s|
  {
    var i := SpaceIndex(s);
    if i == |s| then (if s == [] then [] else [Scope(s)])
    else [Scope(s[..i])] + Split(s[i + 1..])
  }

  /** The first space of `a + " " + b` is the one after `a` when `a` has none. */
  lemma SpaceIndexAfterWord(a: string, b: string)
    requires forall k :: 0 <= k < |a| ==> a[k] != ' '
    ensures SpaceIndex(a + " " + b) == |a|
  {
    var s := a + " " + b;
    var i := SpaceIndex(s);
    assert s[|a|] == ' ';
  }

  /** Joining well-formed scopes and splitting the result gives the scopes back. */
  lemma {:induction false} SplitJoin(scopes: seq<Scope>)
    requires forall k :: 0 <= k < |scopes| ==> WellFormed(scopes[k])
    ensures Split(Join(scopes)) == scopes
  {
    if |scopes| == 0 {
    } else if |scopes| == 1 {
      var w := scopes[0].identifier;
      assert WellFormed(scopes[0]);
      assert SpaceIndex(w) == |w|;
    } else {
      var w := scopes[0].identifier;
      var rest := Join(scopes[1..]);
      assert WellFormed(scopes[0]);
      SpaceIndexAfterWord(w, rest);
      var s := w + " " + rest;
      assert s[..|w|] == w;
      assert s[|w| + 1..] == rest;
      SplitJoin(scopes[1..]);
      assert scopes == [scopes[0]] + scopes[1..];
    }
  }
}
