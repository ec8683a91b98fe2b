/**
  The naming convention that links a method name to its message types
  (`Capitalize(m) + "Request"` / `"Reply"`) and to the name the client
  calls on the transport (`lowerFirst(m)`).

  JavaScript's `charAt(0).toUpperCase()` and `toLowerCase()` are modelled
  for ASCII letters only; every other character maps to itself.
*/
module Naming {

  predicate IsLower(c: char) { 'a' <= c <= 'z' }

  predicate IsUpper(c: char) { 'A' <= c <= 'Z' }

  function ToUpper(c: char): char
  {
    if IsLower(c) then (c as int - 32) as char else c
  }

  function ToLower(c: char): char
  {
    if IsUpper(c) then (c as int + 32) as char else c
  }

  /**
    `m.charAt(0).toUpperCase() + m.slice(1)`: the same length, the first
    character upper-cased (so never lower-case), every other kept.
  */
  function Capitalize(m: string): (r: string)
    ensures |r| == |m|
    ensures forall i :: 1 <= i < |m| ==> r[i] == m[i]
    ensures m != [] ==> r[0] == ToUpper(m[0]) && !IsLower(r[0])
  {
    if m == [] then [] else [ToUpper(m[0])] + m[1..]
  }

  /**
    `m.charAt(0).toLowerCase() + m.slice(1)`, the client's transport-level
    method name: the same length, the first character lower-cased (so never
    upper-case), every other kept.
  */
  function LowerFirst(m: string): (r: string)
    ensures |r| == |m|
    ensures forall i :: 1 <= i < |m| ==> r[i] == m[i]
    ensures m != [] ==> r[0] == ToLower(m[0]) && !IsUpper(r[0])
  {
    if m == [] then [] else [ToLower(m[0])] + m[1..]
  }

  const RequestSuffix := "Request"
  const ReplySuffix := "Reply"

  /**
    Name of the schema (and proto message) that validates the requests of
    method `m`: `m` with its first letter upper-cased, then `Request`.
  */
  function RequestTypeName(m: string): (r: string)
    ensures |r| == |m| + |RequestSuffix|
    ensures m != [] ==> r[0] == ToUpper(m[0]) && !IsLower(r[0]) && r[1..|m|] == m[1..]
    ensures r[|m|..] == RequestSuffix
  {
    Capitalize(m) + RequestSuffix
  }

  /**
    Name of the schema (and proto message) of the replies of method `m`:
    `m` with its first letter upper-cased, then `Reply`.
  */
  function ReplyTypeName(m: string): (r: string)
    ensures |r| == |m| + |ReplySuffix|
    ensures m != [] ==> r[0] == ToUpper(m[0]) && !IsLower(r[0]) && r[1..|m|] == m[1..]
    ensures r[|m|..] == ReplySuffix
  {
    Capitalize(m) + ReplySuffix
  }

  /**
    The client calls `LowerFirst(m)` while the generated proto declares `rpc m`:
    the two names agree exactly when `m` does not start with an upper-case letter.
  */
  lemma LowerFirstKeepsName(m: string)
    ensures LowerFirst(m) == m <==> (m == [] || !IsUpper(m[0]))
  {
    if m != [] && IsUpper(m[0]) {
      assert LowerFirst(m)[0] != m[0];
    }
  }

  /** Lower-casing the first letter undoes Capitalize unless the name already began upper-case. */
  lemma LowerFirstUndoesCapitalize(m: string)
    requires m == [] || !IsUpper(m[0])
    ensures LowerFirst(Capitalize(m)) == m
  {
    if m != [] {
      assert Capitalize(m)[1..] == m[1..];
    }
  }

  /** Capitalize undoes lower-casing unless the name already began lower-case. */
  lemma CapitalizeUndoesLowerFirst(m: string)
    requires m == [] || !IsLower(m[0])
    ensures Capitalize(LowerFirst(m)) == m
  {
    if m != [] {
      assert LowerFirst(m)[1..] == m[1..];
    }
  }

  lemma {:induction false} SuffixCancels(a: string, b: string, s: string)
    requires a + s == b + s
    ensures a == b
  {
    assert |a| == |b|;
    assert a == (a + s)[..|a|];
    assert b == (b + s)[..|b|];
  }

  /**
    Two methods share a request schema exactly when their capitalized names
    agree (so `sayHello` and `SayHello` both resolve to `SayHelloRequest`).
  */
  lemma RequestTypeNameInjective(m1: string, m2: string)
    ensures RequestTypeName(m1) == RequestTypeName(m2) <==> Capitalize(m1) == Capitalize(m2)
  {
    if RequestTypeName(m1) == RequestTypeName(m2) {
      SuffixCancels(Capitalize(m1), Capitalize(m2), RequestSuffix);
    }
  }

  /** No request type name is ever a reply type name: the two suffixes end differently. */
  lemma RequestNeverReply(m1: string, m2: string)
    ensures RequestTypeName(m1) != ReplyTypeName(m2)
  {
    var r, p := RequestTypeName(m1), ReplyTypeName(m2);
    assert r[|r| - 1] == 't';
    assert p[|p| - 1] == 'y';
  }
}
