/** The string functions of the Go standard library that the operator relies on, and their laws. */
module Strings {
  import opened Wrappers

  /** strings.Split with a one-character separator. */
  function Split(s: string, sep: char): (parts: seq<string>)
    ensures |parts| > 0
  {
    if s == "" then [""]
    else
      var rest := Split(s[1..], sep);
      if s[0] == sep then [""] + rest else [[s[0]] + rest[0]] + rest[1..]
  }

  /** strings.Join with a one-character separator. */
  function Join(parts: seq<string>, sep: char): string {
    if parts == [] then ""
    else if |parts| == 1 then parts[0]
    else parts[0] + [sep] + Join(parts[1..], sep)
  }

  /** strings.Contains: `sub` occurs somewhere in `s`. */
  predicate Contains(s: string, sub: string) {
    exists i :: 0 <= i <= |s| && OccursAt(s, sub, i)
  }

  predicate OccursAt(s: string, sub: string, i: int) {
    0 <= i && i + |sub| <= |s| && s[i..i + |sub|] == sub
  }

  lemma {:induction false} MiddleOccurs(a: string, b: string, c: string)
    ensures OccursAt(a + b + c, b, |a|)
  {
  }

  /** unicode.IsSpace. */
  predicate IsSpace(c: char) {
    c in {'\t', '\n', '\U{0B}', '\U{0C}', '\r', ' ', '\U{85}', '\U{A0}', '\U{1680}', '\U{2028}', '\U{2029}',
        '\U{202F}', '\U{205F}', '\U{3000}'}
    || '\U{2000}' <= c <= '\U{200A}'
  }

  /** strings.TrimSpace. */
  function TrimSpace(s: string): string {
    if s != "" && IsSpace(s[0]) then TrimSpace(s[1..])
    else if s != "" && IsSpace(s[|s| - 1]) then TrimSpace(s[..|s| - 1])
    else s
  }

  lemma {:induction false} SplitPartsFree(s: string, sep: char)
    ensures forall p :: p in Split(s, sep) ==> sep !in p
  {
    if s != "" {
      SplitPartsFree(s[1..], sep);
      var rest := Split(s[1..], sep);
      assert rest[0] in rest;
      assert forall p :: p in rest[1..] ==> p in rest;
    }
  }

  lemma {:induction false} SplitFree(s: string, sep: char)
    requires sep !in s
    ensures Split(s, sep) == [s]
  {
    if s != "" {
      SplitFree(s[1..], sep);
      assert s == [s[0]] + s[1..];
    }
  }

  lemma {:induction false} SplitConcat(a: string, b: string, sep: char)
    ensures Split(a + [sep] + b, sep) == Split(a, sep) + Split(b, sep)
  {
    var s := a + [sep] + b;
    if a == "" {
      assert s[1..] == b;
    } else {
      assert s[1..] == a[1..] + [sep] + b;
      SplitConcat(a[1..], b, sep);
    }
  }

  lemma {:induction false} JoinSplit(s: string, sep: char)
    ensures Join(Split(s, sep), sep) == s
  {
    if s != "" {
      JoinSplit(s[1..], sep);
      var rest := Split(s[1..], sep);
      if s[0] != sep && |rest| > 1 {
        assert ([[s[0]] + rest[0]] + rest[1..])[1..] == rest[1..];
        assert Join(Split(s, sep), sep) == [s[0]] + rest[0] + [sep] + Join(rest[1..], sep);
        assert rest[0] + [sep] + Join(rest[1..], sep) == s[1..];
      } else if s[0] == sep {
        assert ([""] + rest)[1..] == rest;
      }
      assert s == [s[0]] + s[1..];
    }
  }

  lemma {:induction false} SplitJoin(parts: seq<string>, sep: char)
    requires parts != [] && forall p :: p in parts ==> sep !in p
    ensures Split(Join(parts, sep), sep) == parts
  {
    SplitFree(parts[0], sep);
    if |parts| > 1 {
      SplitJoin(parts[1..], sep);
      SplitConcat(parts[0], Join(parts[1..], sep), sep);
      assert parts == [parts[0]] + parts[1..];
    }
  }

  lemma {:induction false} JoinConcat(a: seq<string>, b: seq<string>, sep: char)
    requires a != [] && b != []
    ensures Join(a + b, sep) == Join(a, sep) + [sep] + Join(b, sep)
  {
    assert (a + b)[1..] == a[1..] + b;
    if |a| > 1 {
      JoinConcat(a[1..], b, sep);
    }
  }

  /** Looking for a separator-free entry between two separators is the same as looking it up
      in the list of entries. */
  lemma {:induction false} DelimitedSearch(s: string, entry: string, sep: char)
    requires sep !in entry
    ensures Contains([sep] + s + [sep], [sep] + entry + [sep]) <==> entry in Split(s, sep)
  {
    var t, e := [sep] + s + [sep], [sep] + entry + [sep];
    if i :| 0 <= i <= |t| && OccursAt(t, e, i) {
      DelimitedHitIsEntry(s, entry, sep, i);
    }
    if entry in Split(s, sep) {
      var k :| 0 <= k < |Split(s, sep)| && Split(s, sep)[k] == entry;
      var i := EntryIsDelimitedHit(s, entry, sep, k);
    }
  }

  lemma {:induction false} SplitDelimited(s: string, sep: char)
    ensures Split([sep] + s + [sep], sep) == [""] + Split(s, sep) + [""]
  {
    SplitConcat("", s + [sep] + "", sep);
    SplitConcat(s, "", sep);
    assert [sep] + s + [sep] == "" + [sep] + (s + [sep] + "");
  }

  lemma {:induction false} SplitAround(before: string, entry: string, after: string, sep: char)
    requires sep !in entry
    ensures Split(before + ([sep] + entry + [sep]) + after, sep) == Split(before, sep) + [entry] + Split(after, sep)
  {
    SplitConcat(before, entry + [sep] + after, sep);
    SplitConcat(entry, after, sep);
    SplitFree(entry, sep);
    hide Split;
    assert before + ([sep] + entry + [sep]) + after == before + [sep] + (entry + [sep] + after);
    Regroup(Split(before, sep), [entry], Split(after, sep));
  }

  lemma {:induction false} DelimitedHitIsEntry(s: string, entry: string, sep: char, i: nat)
    requires sep !in entry
    requires OccursAt([sep] + s + [sep], [sep] + entry + [sep], i)
    ensures entry in Split(s, sep)
  {
    var t, e := [sep] + s + [sep], [sep] + entry + [sep];
    var before, after := t[..i], t[i + |e|..];
    assert t == before + e + after;
    SplitAround(before, entry, after, sep);
    SplitDelimited(s, sep);
    var n := |Split(before, sep)|;
    assert ([""] + Split(s, sep) + [""])[n] == entry;
    assert Split(s, sep)[n - 1] == entry;
  }

  lemma {:induction false} EntryIsDelimitedHit(s: string, entry: string, sep: char, k: nat) returns (i: nat)
    requires k < |Split(s, sep)| && Split(s, sep)[k] == entry
    ensures OccursAt([sep] + s + [sep], [sep] + entry + [sep], i)
  {
    var parts := Split(s, sep);
    JoinSplit(s, sep);
    var a, b := parts[..k], parts[k + 1..];
    assert parts == a + ([entry] + b);
    var before := if a == [] then "" else [sep] + Join(a, sep);
    var after := if b == [] then "" else Join(b, sep) + [sep];
    i := |before|;
    JoinAround(a, entry, b, sep);
    assert [sep] + s + [sep] == before + ([sep] + entry + [sep]) + after;
    MiddleOccurs(before, [sep] + entry + [sep], after);
  }

  lemma {:induction false} JoinAround(a: seq<string>, entry: string, b: seq<string>, sep: char)
    ensures var before := if a == [] then "" else [sep] + Join(a, sep);
      var after := if b == [] then "" else Join(b, sep) + [sep];
      [sep] + Join(a + ([entry] + b), sep) + [sep] == before + ([sep] + entry + [sep]) + after
  {
    var tail := [entry] + b;
    if b != [] {
      JoinConcat([entry], b, sep);
    }
    if a == [] {
      assert a + tail == tail;
    } else {
      JoinConcat(a, tail, sep);
    }
  }
}
