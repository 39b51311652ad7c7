/** The optional value returned by dictionary lookups and model scans. */
module Options {
  datatype Option<+T> = None | Some(value: T)
}

/**
 * Text primitives shared by the API handlers and the chat front-end:
 * ASCII case mapping (standing in for Python's str.lower and str.capitalize),
 * substring containment (Python's `part in text`), and the ordered keyword
 * filter `[k for k in keys if k in text]`.
 */
module Strings {

  function LowerChar(c: char): char {
    if 'A' <= c <= 'Z' then (c as int + 32) as char else c
  }

  function UpperChar(c: char): char {
    if 'a' <= c <= 'z' then (c as int - 32) as char else c
  }

  predicate IsLower(s: string) {
    forall i :: 0 <= i < |s| ==> !('A' <= s[i] <= 'Z')
  }

  /** ASCII model of Python's str.lower. */
  function Lower(s: string): (r: string)
    ensures |r| == |s| && IsLower(r)
    ensures forall i :: 0 <= i < |s| && !('A' <= s[i] <= 'Z') ==> r[i] == s[i]
    ensures forall i :: 0 <= i < |s| && 'A' <= s[i] <= 'Z' ==> r[i] as int == s[i] as int + 32 && 'a' <= r[i] <= 'z'
  {
    seq(|s|, i requires 0 <= i < |s| => LowerChar(s[i]))
  }

  /** ASCII model of Python's str.capitalize: first character upper-cased, the rest lower-cased. */
  function Capitalize(s: string): (r: string)
    ensures |r| == |s|
    ensures s != [] ==> !('a' <= r[0] <= 'z') && IsLower(r[1..])
    ensures s != [] && 'a' <= s[0] <= 'z' ==> r[0] as int == s[0] as int - 32
    ensures s != [] && !('a' <= s[0] <= 'z') ==> r[0] == s[0]
    ensures s != [] ==> r[1..] == Lower(s[1..])
  {
    if s == [] then [] else [UpperChar(s[0])] + Lower(s[1..])
  }

  lemma LowerIdempotent(s: string)
    ensures Lower(Lower(s)) == Lower(s)
  {
  }

  predicate StartsWith(text: string, prefix: string) {
    |prefix| <= |text| && text[..|prefix|] == prefix
  }

  /** Python's `part in text` for strings: `part` occurs somewhere in `text` (the empty string occurs everywhere). */
  predicate Contains(text: string, part: string)
    decreases |text|
  {
    StartsWith(text, part) || (|text| > 0 && Contains(text[1..], part))
  }

  /** Declarative reading of containment: `part` sits at offset `i` of `text`. */
  ghost predicate OccursAt(text: string, part: string, i: int) {
    0 <= i && i + |part| <= |text| && text[i..i + |part|] == part
  }

  /** The recursive scan agrees with "there is an offset where `part` occurs". */
  lemma {:induction false} ContainsIff(text: string, part: string)
    ensures Contains(text, part) <==> exists i :: OccursAt(text, part, i)
    decreases |text|
  {
    if StartsWith(text, part) {
      assert OccursAt(text, part, 0);
    }
    if |text| > 0 {
      ContainsIff(text[1..], part);
      if exists i :: OccursAt(text[1..], part, i) {
        var i :| OccursAt(text[1..], part, i);
        assert text[i + 1..i + 1 + |part|] == text[1..][i..i + |part|];
        assert OccursAt(text, part, i + 1);
      }
      if exists i :: OccursAt(text, part, i) {
        var i :| OccursAt(text, part, i);
        if i > 0 {
          assert text[1..][i - 1..i - 1 + |part|] == text[i..i + |part|];
          assert OccursAt(text[1..], part, i - 1);
        } else {
          assert StartsWith(text, part);
        }
      }
    } else {
      if exists i :: OccursAt(text, part, i) {
        var i :| OccursAt(text, part, i);
        assert |part| == 0 && text[..0] == part;
      }
    }
  }

  /** `part` sits right after `before`, whatever follows it. */
  lemma OccursInfix(before: string, part: string, after: string)
    ensures OccursAt(before + part + after, part, |before|)
  {
    assert (before + part + after)[|before|..|before| + |part|] == part;
  }

  /** An occurrence stays where it is when more text is appended. */
  lemma OccursExtend(text: string, part: string, i: int, more: string)
    requires OccursAt(text, part, i)
    ensures OccursAt(text + more, part, i)
  {
    assert (text + more)[i..i + |part|] == text[i..i + |part|];
  }

  /** An occurrence moves right by the length of text prepended. */
  lemma OccursPrepend(more: string, text: string, part: string, i: int)
    requires OccursAt(text, part, i)
    ensures OccursAt(more + text, part, |more| + i)
  {
    assert (more + text)[|more| + i..|more| + i + |part|] == text[i..i + |part|];
  }

  /**
   * In `intro + (sep + h1 + s1 + h2 + s2 + h3 + s3)` the three headings occur,
   * in this order, at the returned offsets.
   */
  lemma {:induction false} ThreeHeadings(intro: string, sep: string, h1: string, s1: string, h2: string, s2: string,
                                         h3: string, s3: string)
    returns (o1: nat, o2: nat, o3: nat)
    requires h1 != [] && h2 != []
    ensures o1 < o2 < o3
    ensures OccursAt(intro + (sep + h1 + s1 + h2 + s2 + h3 + s3), h1, o1)
    ensures OccursAt(intro + (sep + h1 + s1 + h2 + s2 + h3 + s3), h2, o2)
    ensures OccursAt(intro + (sep + h1 + s1 + h2 + s2 + h3 + s3), h3, o3)
  {
    var p1 := sep + h1 + s1;
    var p2 := p1 + h2 + s2;
    var b, e, p := |sep|, |p1|, |p2|;

    OccursInfix(sep, h1, s1);
    OccursExtend(p1, h1, b, h2);
    OccursExtend(p1 + h2, h1, b, s2);
    OccursExtend(p2, h1, b, h3);
    OccursExtend(p2 + h3, h1, b, s3);

    OccursInfix(p1, h2, s2);
    OccursExtend(p2, h2, e, h3);
    OccursExtend(p2 + h3, h2, e, s3);

    OccursInfix(p2, h3, s3);

    var sections := p2 + h3 + s3;
    OccursPrepend(intro, sections, h1, b);
    OccursPrepend(intro, sections, h2, e);
    OccursPrepend(intro, sections, h3, p);
    o1, o2, o3 := |intro| + b, |intro| + e, |intro| + p;
  }

  /** Whatever surrounds `part`, the result contains it. */
  lemma ContainsInfix(before: string, part: string, after: string)
    ensures Contains(before + part + after, part)
  {
    OccursInfix(before, part, after);
    ContainsIff(before + part + after, part);
  }

  /** A text built as `prefix + middle + part + after` starts with `prefix` and contains `part`. */
  lemma PrefixAndInfix(prefix: string, middle: string, part: string, after: string)
    ensures StartsWith(prefix + middle + part + after, prefix)
    ensures Contains(prefix + middle + part + after, part)
  {
    assert (prefix + middle + part + after)[..|prefix|] == prefix;
    ContainsInfix(prefix + middle, part, after);
  }

  /** `[k for k in keys if k in text]`: the keys found in `text`, in key order. */
  function SelectMatching(keys: seq<string>, text: string): (r: seq<string>)
    ensures |r| <= |keys|
  {
    if keys == [] then []
    else (if Contains(text, keys[0]) then [keys[0]] else []) + SelectMatching(keys[1..], text)
  }

  /**
   * SelectMatching keeps exactly the keys that occur in `text`, in their
   * original order: `idx` lists the positions of the kept keys, strictly
   * increasing, and a position is listed exactly when its key occurs.
   */
  lemma {:induction false} SelectMatchingPositions(keys: seq<string>, text: string) returns (idx: seq<nat>)
    ensures |idx| == |SelectMatching(keys, text)|
    ensures forall m :: 0 <= m < |idx| ==> idx[m] < |keys| && keys[idx[m]] == SelectMatching(keys, text)[m]
    ensures Increasing(idx)
    ensures forall i :: 0 <= i < |keys| ==> (Contains(text, keys[i]) <==> i in idx)
  {
    if keys == [] {
      return [];
    }
    var r, rr := SelectMatching(keys, text), SelectMatching(keys[1..], text);
    var rest := SelectMatchingPositions(keys[1..], text);
    var shifted := Shift(rest);
    var head: seq<nat> := if Contains(text, keys[0]) then [0] else [];
    assert r == (if Contains(text, keys[0]) then [keys[0]] else []) + rr;
    idx := head + shifted;
    forall m | 0 <= m < |idx|
      ensures idx[m] < |keys| && keys[idx[m]] == r[m]
    {
      if m >= |head| {
        var k := m - |head|;
        assert idx[m] == rest[k] + 1;
        assert keys[idx[m]] == keys[1..][rest[k]] == rr[k];
      }
    }
    PrependShifted(head, rest);
    forall i | 0 <= i < |keys|
      ensures Contains(text, keys[i]) <==> i in idx
    {
      if i > 0 {
        assert keys[i] == keys[1..][i - 1];
      }
    }
  }

  predicate Increasing(s: seq<nat>) {
    forall m, n :: 0 <= m < n < |s| ==> s[m] < s[n]
  }

  /** Index bookkeeping for SelectMatchingPositions: shift the positions found in the tail and maybe prepend 0. */
  lemma PrependShifted(head: seq<nat>, rest: seq<nat>)
    requires head == [] || head == [0]
    requires Increasing(rest)
    ensures Increasing(head + Shift(rest))
    ensures 0 in head + Shift(rest) <==> head == [0]
    ensures forall i :: i > 0 ==> (i in head + Shift(rest) <==> i - 1 in rest)
  {
    var shifted := Shift(rest);
    assert |shifted| == |rest|;
    assert forall m :: 0 <= m < |rest| ==> shifted[m] == rest[m] + 1;
    var idx := head + shifted;
    assert forall m :: |head| <= m < |idx| ==> idx[m] == rest[m - |head|] + 1;
    forall m, n | 0 <= m < n < |idx|
      ensures idx[m] < idx[n]
    {
      if m >= |head| {
        assert rest[m - |head|] < rest[n - |head|];
      }
    }
    assert 0 !in shifted;
    forall i | i > 0
      ensures i in idx <==> i - 1 in rest
    {
      if i in idx {
        var m :| 0 <= m < |idx| && idx[m] == i;
        assert rest[m - |head|] == i - 1;
      }
      if i - 1 in rest {
        var k :| 0 <= k < |rest| && rest[k] == i - 1;
        assert idx[k + |head|] == i;
      }
    }
  }

  function Shift(s: seq<nat>): seq<nat> {
    seq(|s|, m requires 0 <= m < |s| => s[m] + 1)
  }

  /** The first selected key is the earliest key, in key order, that occurs in `text`. */
  lemma FirstMatchIsEarliest(keys: seq<string>, text: string)
    requires SelectMatching(keys, text) != []
    ensures exists i :: 0 <= i < |keys| && keys[i] == SelectMatching(keys, text)[0] && Contains(text, keys[i])
                        && forall j :: 0 <= j < i ==> !Contains(text, keys[j])
  {
    var idx := SelectMatchingPositions(keys, text);
    var i := idx[0];
    forall j | 0 <= j < i
      ensures j !in idx
    {
      forall m | 0 <= m < |idx|
        ensures idx[m] != j
      {
        if m > 0 {
          assert idx[0] < idx[m];
        }
      }
    }
    assert Contains(text, keys[i]);
  }

  /** Nothing is selected exactly when no key occurs. */
  lemma SelectMatchingEmpty(keys: seq<string>, text: string)
    ensures SelectMatching(keys, text) == [] <==> forall k :: k in keys ==> !Contains(text, k)
  {
    var idx := SelectMatchingPositions(keys, text);
    if SelectMatching(keys, text) == [] {
      forall k | k in keys
        ensures !Contains(text, k)
      {
        var i :| 0 <= i < |keys| && keys[i] == k;
      }
    } else {
      var k := keys[idx[0]];
      assert k in keys && Contains(text, k);
    }
  }

  /** Every selected key is one of the keys and occurs in `text`. */
  lemma SelectMatchingSound(keys: seq<string>, text: string)
    ensures forall k :: k in SelectMatching(keys, text) ==> k in keys && Contains(text, k)
  {
    var idx := SelectMatchingPositions(keys, text);
    forall k | k in SelectMatching(keys, text)
      ensures k in keys && Contains(text, k)
    {
      var m :| 0 <= m < |idx| && SelectMatching(keys, text)[m] == k;
      assert keys[idx[m]] == k;
    }
  }
}
