/** Splitting at a separator, dropping empty parts and joining again: the normalisation of labels and slugs. */
module Text {

  function Split(s: string, sep: char): (parts: seq<string>)
    ensures parts != []
  {
    if s == [] then [[]]
    else
      var rest := Split(s[1..], sep);
      if s[0] == sep then [[]] + rest else [[s[0]] + rest[0]] + rest[1..]
  }

  function Join(parts: seq<string>, sep: char): string {
    if parts == [] then []
    else if |parts| == 1 then parts[0]
    else parts[0] + [sep] + Join(parts[1..], sep)
  }

  function NonEmpty(parts: seq<string>): seq<string> {
    if parts == [] then [] else (if parts[0] == [] then [] else [parts[0]]) + NonEmpty(parts[1..])
  }

  function Collapse(s: string, sep: char): string {
    Join(NonEmpty(Split(s, sep)), sep)
  }

  function Count(s: string, c: char): nat {
    if s == [] then 0 else (if s[0] == c then 1 else 0) + Count(s[1..], c)
  }

  // ── Splitting ───────────────────────────────────────────────

  lemma {:induction false} JoinSplit(s: string, sep: char)
    ensures Join(Split(s, sep), sep) == s
  {
    if s != [] {
      var rest := Split(s[1..], sep);
      JoinSplit(s[1..], sep);
      if s[0] == sep {
        assert ([[]] + rest)[1..] == rest;
      } else {
        var parts := [[s[0]] + rest[0]] + rest[1..];
        assert parts[1..] == rest[1..];
      }
      assert [s[0]] + s[1..] == s;
    }
  }

  lemma {:induction false} SplitIsInjective(s: string, t: string, sep: char)
    requires Split(s, sep) == Split(t, sep)
    ensures s == t
  {
    JoinSplit(s, sep);
    JoinSplit(t, sep);
  }

  lemma {:induction false} SplitCounts(s: string, sep: char)
    ensures |Split(s, sep)| == Count(s, sep) + 1
  {
    if s != [] {
      SplitCounts(s[1..], sep);
    }
  }

  lemma {:induction false} SplitWhole(s: string, sep: char)
    requires sep !in s
    ensures Split(s, sep) == [s]
  {
    if s != [] {
      SplitWhole(s[1..], sep);
      assert [s[0]] + s[1..] == s;
    }
  }

  /** Appending a separator and a part without separators appends that part. */
  lemma {:induction false} SplitSnoc(s: string, part: string, sep: char)
    requires sep !in part
    ensures Split(s + [sep] + part, sep) == Split(s, sep) + [part]
  {
    var t := s + [sep] + part;
    if s == [] {
      assert t[1..] == part;
      SplitWhole(part, sep);
    } else {
      assert t[1..] == s[1..] + [sep] + part;
      SplitSnoc(s[1..], part, sep);
    }
  }

  /** No part holds the separator, and every character of a part comes from the text. */
  lemma {:induction false} SplitParts(s: string, sep: char, k: nat)
    requires k < |Split(s, sep)|
    ensures sep !in Split(s, sep)[k] && forall c | c in Split(s, sep)[k] :: c in s
  {
    if s != [] {
      var rest := Split(s[1..], sep);
      if s[0] == sep {
        if k > 0 {
          SplitParts(s[1..], sep, k - 1);
        }
      } else {
        SplitParts(s[1..], sep, k);
        assert Split(s, sep)[k] == if k == 0 then [s[0]] + rest[0] else rest[k];
      }
    }
  }

  // ── Normal forms ────────────────────────────────────────────

  /** No separator at either end and no two in a row. */
  predicate Clean(s: string, sep: char) {
    && (s != [] ==> s[0] != sep && s[|s| - 1] != sep)
    && NoDouble(s, sep)
  }

  predicate NoDouble(s: string, sep: char) {
    forall i :: 0 <= i < |s| - 1 ==> !(s[i] == sep && s[i + 1] == sep)
  }

  lemma {:induction false} SplitOfClean(s: string, sep: char, k: nat)
    requires NoDouble(s, sep) && (s != [] ==> s[|s| - 1] != sep) && k < |Split(s, sep)|
    ensures k == 0 ==> (Split(s, sep)[0] == [] <==> s == [] || s[0] == sep)
    ensures k > 0 ==> Split(s, sep)[k] != []
  {
    if s != [] {
      var tail := s[1..];
      assert NoDouble(tail, sep) by {
        forall i | 0 <= i < |tail| - 1 ensures !(tail[i] == sep && tail[i + 1] == sep) {
          assert tail[i] == s[i + 1] && tail[i + 1] == s[i + 2];
        }
      }
      assert tail != [] ==> tail[|tail| - 1] == s[|s| - 1];
      if s[0] == sep {
        assert |s| > 1;
        assert tail[0] == s[1] != sep;
        if k > 0 {
          SplitOfClean(tail, sep, k - 1);
        }
      } else if k > 0 {
        SplitOfClean(tail, sep, k);
        assert Split(s, sep)[k] == Split(tail, sep)[k];
      }
    }
  }

  lemma {:induction false} NonEmptyKeeps(parts: seq<string>)
    requires forall k :: 0 <= k < |parts| ==> parts[k] != []
    ensures NonEmpty(parts) == parts
  {
    if parts != [] {
      NonEmptyKeeps(parts[1..]);
    }
  }

  /** A clean text is its own normal form. */
  lemma CollapseKeepsClean(s: string, sep: char)
    requires Clean(s, sep)
    ensures Collapse(s, sep) == s
  {
    if s == [] {
      assert NonEmpty([[]]) == [];
    } else {
      forall k | 0 <= k < |Split(s, sep)| ensures Split(s, sep)[k] != [] {
        SplitOfClean(s, sep, k);
      }
      NonEmptyKeeps(Split(s, sep));
      JoinSplit(s, sep);
    }
  }

  lemma {:induction false} NonEmptyParts(parts: seq<string>, part: string)
    ensures part in NonEmpty(parts) <==> part in parts && part != []
  {
    if parts != [] {
      NonEmptyParts(parts[1..], part);
    }
  }

  lemma {:induction false} JoinIsClean(parts: seq<string>, sep: char)
    requires forall k :: 0 <= k < |parts| ==> parts[k] != [] && sep !in parts[k]
    ensures Clean(Join(parts, sep), sep) && (parts != [] ==> Join(parts, sep) != [])
  {
    if |parts| > 1 {
      var rest := Join(parts[1..], sep);
      JoinIsClean(parts[1..], sep);
      var s := Join(parts, sep);
      var n := |parts[0]|;
      assert s == parts[0] + [sep] + rest && s[n] == sep;
      assert s[|s| - 1] == rest[|rest| - 1];
      assert s[0] == parts[0][0];
      forall i | 0 <= i < |s| - 1 ensures !(s[i] == sep && s[i + 1] == sep) {
        if i < n {
          assert s[i] == parts[0][i];
        } else if i > n {
          assert s[i] == rest[i - n - 1] && s[i + 1] == rest[i - n];
        } else {
          assert s[i + 1] == rest[0];
        }
      }
    } else if |parts| == 1 {
      assert parts[0] in parts;
    }
  }

  lemma {:induction false} JoinChars(parts: seq<string>, sep: char, c: char)
    requires c in Join(parts, sep)
    ensures c == sep || exists k :: 0 <= k < |parts| && c in parts[k]
  {
    if |parts| > 1 && c != sep && c !in parts[0] {
      JoinChars(parts[1..], sep, c);
      var k :| 0 <= k < |parts[1..]| && c in parts[1..][k];
      assert parts[k + 1] == parts[1..][k];
    } else if |parts| == 1 {
      assert c in parts[0];
    }
  }

  /** The normal form is clean and made of the text's characters and the separator. */
  lemma CollapseIsClean(s: string, sep: char)
    ensures Clean(Collapse(s, sep), sep)
    ensures forall c | c in Collapse(s, sep) :: c == sep || c in s
  {
    var parts := NonEmpty(Split(s, sep));
    forall k | 0 <= k < |parts| ensures parts[k] != [] && sep !in parts[k] && forall c | c in parts[k] :: c in s {
      assert parts[k] in parts;
      NonEmptyParts(Split(s, sep), parts[k]);
      var j :| 0 <= j < |Split(s, sep)| && Split(s, sep)[j] == parts[k];
      SplitParts(s, sep, j);
    }
    JoinIsClean(parts, sep);
    forall c | c in Collapse(s, sep) ensures c == sep || c in s {
      JoinChars(parts, sep, c);
    }
  }

  // ── Nothing is lost ─────────────────────────────────────────

  /** Joining parts and splitting again gives the parts back. */
  lemma {:induction false} SplitJoin(parts: seq<string>, sep: char)
    requires parts != [] && forall k :: 0 <= k < |parts| ==> sep !in parts[k]
    ensures Split(Join(parts, sep), sep) == parts
  {
    if |parts| == 1 {
      SplitWhole(parts[0], sep);
    } else {
      SplitJoin(parts[1..], sep);
      SplitCons(parts[0], Join(parts[1..], sep), sep);
    }
  }

  lemma {:induction false} SplitCons(part: string, s: string, sep: char)
    requires sep !in part
    ensures Split(part + [sep] + s, sep) == [part] + Split(s, sep)
  {
    var t := part + [sep] + s;
    if part == [] {
      assert t[1..] == s;
    } else {
      assert t[1..] == part[1..] + [sep] + s;
      SplitCons(part[1..], s, sep);
      assert [part[0]] + part[1..] == part;
    }
  }

  /** The normal form has the same words in the same order. */
  lemma CollapseKeepsWords(s: string, sep: char)
    ensures NonEmpty(Split(Collapse(s, sep), sep)) == NonEmpty(Split(s, sep))
  {
    var parts := NonEmpty(Split(s, sep));
    forall k | 0 <= k < |parts| ensures parts[k] != [] && sep !in parts[k] {
      assert parts[k] in parts;
      NonEmptyParts(Split(s, sep), parts[k]);
      var j :| 0 <= j < |Split(s, sep)| && Split(s, sep)[j] == parts[k];
      SplitParts(s, sep, j);
    }
    if parts == [] {
      assert NonEmpty([[]]) == [];
    } else {
      SplitJoin(parts, sep);
      NonEmptyKeeps(parts);
    }
  }
}
