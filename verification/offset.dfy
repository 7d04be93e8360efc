/** The date-string repair done before parsing: the upstream service writes
    UTC offsets without a colon (`2019-11-13T03:00:00+0000`), so every
    `+0000` is replaced by `+00:00` (Python `str.replace`, which scans left to
    right and replaces non-overlapping occurrences). */
module Offset {

  const Raw: string := "+0000"
  const Colon: string := "+00:00"

  /** `s` holds the colon-less offset `+0000` starting at index `i`. */
  predicate RawAt(s: string, i: int) {
    && 0 <= i && i + 5 <= |s|
    && s[i] == '+' && s[i + 1] == '0' && s[i + 2] == '0' && s[i + 3] == '0' && s[i + 4] == '0'
  }

  predicate ContainsRaw(s: string) {
    exists i :: 0 <= i <= |s| && RawAt(s, i)
  }

  predicate NoPlus(s: string) {
    forall i :: 0 <= i < |s| ==> s[i] != '+'
  }

  /** `due.replace("+0000", "+00:00")`. */
  function Normalize(s: string): (r: string)
    ensures |r| >= |s|
    ensures |s| > 0 && s[0] != '+' ==> |r| > 0 && r[0] == s[0]
    decreases |s|
  {
    if |s| == 0 then s
    else if RawAt(s, 0) then Colon + Normalize(s[5..])
    else [s[0]] + Normalize(s[1..])
  }

  /** Occurrences are found at the same place after dropping a prefix. */
  lemma RawDrop(s: string, n: nat, i: nat)
    requires n <= |s|
    ensures RawAt(s, n + i) <==> RawAt(s[n..], i)
  {
  }

  /** An occurrence of the colon-less offset anywhere but at the front lies
      wholly inside the tail. */
  lemma ContainsRawTail(s: string)
    requires |s| > 0 && !RawAt(s, 0)
    ensures ContainsRaw(s) <==> ContainsRaw(s[1..])
  {
    if ContainsRaw(s) {
      var i :| 0 <= i <= |s| && RawAt(s, i);
      RawDrop(s, 1, i - 1);
    }
    if ContainsRaw(s[1..]) {
      var i :| 0 <= i <= |s[1..]| && RawAt(s[1..], i);
      RawDrop(s, 1, i);
    }
  }

  /** A string without the colon-less offset comes back unchanged, and one
      with it never does. */
  lemma {:induction false} NormalizeUnchangedIff(s: string)
    ensures Normalize(s) == s <==> !ContainsRaw(s)
    decreases |s|
  {
    if |s| == 0 {
    } else if RawAt(s, 0) {
      assert |Normalize(s)| > |s|;
    } else {
      var t := s[1..];
      NormalizeUnchangedIff(t);
      ContainsRawTail(s);
      assert s == [s[0]] + t;
    }
  }

  /** The result starts with `+` when a replacement happens at the front,
      and with the input's first character otherwise. */
  lemma FirstOfNormalize(s: string)
    requires |s| > 0
    ensures Normalize(s)[0] == if RawAt(s, 0) then '+' else s[0]
  {
  }

  /** A run of zeros at the front of the result was already at the front of
      the input: a replacement always starts with `+`. */
  lemma {:induction false} LeadingZeros(s: string, k: nat)
    requires k <= |Normalize(s)|
    requires forall j :: 0 <= j < k ==> Normalize(s)[j] == '0'
    ensures k <= |s|
    ensures forall j :: 0 <= j < k ==> s[j] == '0'
    decreases |s|
  {
    if k == 0 {
    } else {
      FirstOfNormalize(s);
      assert !RawAt(s, 0);
      var t := s[1..];
      var r := Normalize(s);
      assert r == [s[0]] + Normalize(t);
      assert forall j :: 0 <= j < k - 1 ==> Normalize(t)[j] == r[j + 1];
      LeadingZeros(t, k - 1);
      assert forall j :: 1 <= j < k ==> s[j] == t[j - 1];
    }
  }

  /** `+00:00` cannot start a colon-less offset, nor be part of one. */
  lemma ColonThenClean(rest: string)
    requires !ContainsRaw(rest)
    ensures !ContainsRaw(Colon + rest)
  {
    var r := Colon + rest;
    if i :| 0 <= i <= |r| && RawAt(r, i) {
      if i >= 6 {
        assert r[6..] == rest;
        RawDrop(r, 6, i - 6);
      }
    }
  }

  /** Putting back a character that did not start an occurrence creates
      none. */
  lemma CharThenClean(s: string)
    requires |s| > 0 && !RawAt(s, 0)
    requires !ContainsRaw(Normalize(s[1..]))
    ensures !ContainsRaw([s[0]] + Normalize(s[1..]))
  {
    var t := s[1..];
    var rest := Normalize(t);
    var r := [s[0]] + rest;
    if i :| 0 <= i <= |r| && RawAt(r, i) {
      if i == 0 {
        assert forall j :: 0 <= j < 4 ==> rest[j] == r[j + 1];
        LeadingZeros(t, 4);
      } else {
        assert r[1..] == rest;
        RawDrop(r, 1, i - 1);
      }
    }
  }

  /** No colon-less offset survives normalisation. */
  lemma {:induction false} NormalizeRemovesRaw(s: string)
    ensures !ContainsRaw(Normalize(s))
    decreases |s|
  {
    if |s| == 0 {
    } else if RawAt(s, 0) {
      NormalizeRemovesRaw(s[5..]);
      ColonThenClean(Normalize(s[5..]));
    } else {
      NormalizeRemovesRaw(s[1..]);
      CharThenClean(s);
    }
  }

  /** Normalising twice is normalising once. */
  lemma NormalizeIdempotent(s: string)
    ensures Normalize(Normalize(s)) == Normalize(s)
  {
    NormalizeRemovesRaw(s);
    NormalizeUnchangedIff(Normalize(s));
  }

  /** In front of a `+`, an occurrence at the start of `a + b` is one at the
      start of `a`. */
  lemma RawAtFrontOfAppend(a: string, b: string)
    requires |a| > 0 && |b| > 0 && b[0] == '+'
    ensures RawAt(a + b, 0) <==> RawAt(a, 0)
  {
    var s := a + b;
    if |a| < 5 {
      assert s[|a|] == b[0];
    } else {
      assert s[..5] == a[..5];
    }
  }

  /** A string may be cut in front of any `+` and each half normalised on
      its own: no occurrence can straddle the cut. */
  lemma {:induction false} NormalizeAppend(a: string, b: string)
    requires |b| > 0 && b[0] == '+'
    ensures Normalize(a + b) == Normalize(a) + Normalize(b)
    decreases |a|
  {
    if |a| == 0 {
      assert a + b == b;
    } else {
      RawAtFrontOfAppend(a, b);
      if RawAt(a, 0) {
        assert (a + b)[5..] == a[5..] + b;
        NormalizeAppend(a[5..], b);
      } else {
        assert (a + b)[1..] == a[1..] + b;
        NormalizeAppend(a[1..], b);
      }
    }
  }

  /** The replacement keeps the text around each occurrence: an occurrence
      becomes `+00:00` and what stands before and after it is normalised on
      its own. With `NormalizeUnchangedIff` this fixes `Normalize` on every
      string, by induction on the number of occurrences. */
  lemma NormalizeAround(a: string, b: string)
    ensures Normalize(a + Raw + b) == Normalize(a) + Colon + Normalize(b)
  {
    var t := Raw + b;
    assert a + Raw + b == a + t;
    NormalizeAppend(a, t);
    assert RawAt(t, 0);
    assert t[5..] == b;
  }

  /** Without any `+` there is nothing to replace. */
  lemma NormalizeWithoutPlus(s: string)
    requires NoPlus(s)
    ensures Normalize(s) == s
  {
    NormalizeUnchangedIff(s);
  }

  /** Whatever precedes it, a timestamp ending in `+0000` normalises to the
      same string as the one ending in `+00:00`, so the parser sees both
      spellings of the UTC offset alike. */
  lemma OffsetSpellingsAgree(p: string)
    ensures Normalize(p + Raw) == Normalize(p + Colon) == Normalize(p) + Colon
  {
    NormalizeAppend(p, Raw);
    NormalizeAppend(p, Colon);
    assert Normalize(Raw) == Colon + Normalize(Raw[5..]);
    assert !RawAt(Colon, 0);
    NormalizeWithoutPlus(Colon[1..]);
    assert Colon == [Colon[0]] + Colon[1..];
  }

  /** The upstream example date becomes an ISO-8601 offset. */
  lemma UpstreamExample(p: string)
    requires p == "2019-11-13T03:00:00"
    ensures Normalize(p + "+0000") == p + "+00:00"
  {
    assert NoPlus(p);
    NormalizeWithoutPlus(p);
    OffsetSpellingsAgree(p);
  }
}
