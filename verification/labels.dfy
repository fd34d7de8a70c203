/**
 Labels: JavaScript's `String.prototype.trim`, used to reject blank labels,
 and the per-label summary `getLabelSummary` builds with `reduce`.
 */
module Labels {

  /** ECMAScript WhiteSpace and LineTerminator code points, the characters
      `trim` strips from both ends. */
  predicate IsWhitespace(c: char)
  {
    var n := c as int;
    || n == 0x09 || n == 0x0A || n == 0x0B || n == 0x0C || n == 0x0D
    || n == 0x20 || n == 0xA0 || n == 0x1680
    || (0x2000 <= n <= 0x200A)
    || n == 0x2028 || n == 0x2029 || n == 0x202F || n == 0x205F
    || n == 0x3000 || n == 0xFEFF
  }

  /** Drops leading whitespace: the result is the suffix of `s` that starts
      at its first non-whitespace character. */
  function TrimStart(s: string): (r: string)
    ensures |r| <= |s| && r == s[|s| - |r|..]
    ensures forall i :: 0 <= i < |s| - |r| ==> IsWhitespace(s[i])
    ensures r == [] || !IsWhitespace(r[0])
    decreases |s|
  {
    if |s| > 0 && IsWhitespace(s[0]) then TrimStart(s[1..]) else s
  }

  /** Drops trailing whitespace: the result is the prefix of `s` that ends
      at its last non-whitespace character. */
  function TrimEnd(s: string): (r: string)
    ensures |r| <= |s| && r == s[..|r|]
    ensures forall i :: |r| <= i < |s| ==> IsWhitespace(s[i])
    ensures r == [] || !IsWhitespace(r[|r| - 1])
    decreases |s|
  {
    if |s| > 0 && IsWhitespace(s[|s| - 1]) then TrimEnd(s[..|s| - 1]) else s
  }

  function Trim(s: string): string
  {
    TrimEnd(TrimStart(s))
  }

  /** The test `labelInput.trim() === ""`. */
  predicate IsBlank(s: string)
  {
    Trim(s) == ""
  }

  /** A label is blank exactly when every one of its characters is
      whitespace; in particular the empty label is blank. */
  lemma BlankIffAllWhitespace(s: string)
    ensures IsBlank(s) <==> forall i :: 0 <= i < |s| ==> IsWhitespace(s[i])
  {
    var t := TrimStart(s);
    if IsBlank(s) {
      assert t == [] by {
        if t != [] {
          assert false;
        }
      }
    } else if forall i :: 0 <= i < |s| ==> IsWhitespace(s[i]) {
      assert false;
    }
  }

  /** One line of the summary: a label (`name`, since `label` is a Dafny
      keyword) and how many shapes carry it. */
  datatype Entry = Entry(name: string, count: nat)

  /** How many times `l` occurs in `ls`. */
  function Occurrences(ls: seq<string>, l: string): nat
  {
    if ls == [] then 0
    else Occurrences(ls[..|ls| - 1], l) + (if ls[|ls| - 1] == l then 1 else 0)
  }

  /** The count stored for `l`, or 0 when no entry has that label
      (`acc[label] || 0`). */
  function CountOf(es: seq<Entry>, l: string): nat
  {
    if es == [] then 0
    else if es[0].name == l then es[0].count
    else CountOf(es[1..], l)
  }

  /** The labels that have an entry. */
  function Keys(es: seq<Entry>): set<string>
  {
    if es == [] then {} else {es[0].name} + Keys(es[1..])
  }

  /** The sum of all counts. */
  function Total(es: seq<Entry>): nat
  {
    if es == [] then 0 else es[0].count + Total(es[1..])
  }

  /** No label has two entries: each entry's label is absent from the
      entries after it. */
  ghost predicate DistinctLabels(es: seq<Entry>)
    decreases |es|
  {
    es == [] || (es[0].name !in Keys(es[1..]) && DistinctLabels(es[1..]))
  }

  /** Every entry counts at least one label. */
  ghost predicate PositiveCounts(es: seq<Entry>)
  {
    forall i :: 0 <= i < |es| ==> es[i].count >= 1
  }

  /** One step of the `reduce`, `acc[l] = (acc[l] || 0) + 1`, on an
      accumulator with no inherited members, so every label starts from 0.
      A new label is appended, so entries stay in first-occurrence order.
      `Tally.ObjectBump` is the step on the plain `{}` the component uses. */
  function Bump(es: seq<Entry>, l: string): (r: seq<Entry>)
  {
    if es == [] then [Entry(l, 1)]
    else if es[0].name == l then [Entry(l, es[0].count + 1)] + es[1..]
    else [es[0]] + Bump(es[1..], l)
  }

  /** `Bump` adds one to the count looked up for `l` and leaves every other
      label's count alone. */
  lemma {:induction false} BumpCount(es: seq<Entry>, l: string, k: string)
    ensures CountOf(Bump(es, l), k) == CountOf(es, k) + (if k == l then 1 else 0)
  {
    if es != [] && es[0].name != l {
      BumpCount(es[1..], l, k);
      assert Bump(es, l)[1..] == Bump(es[1..], l);
    }
  }

  /** `Bump` adds one to the total and `l` to the keys. */
  lemma {:induction false} BumpTotalKeys(es: seq<Entry>, l: string)
    ensures Total(Bump(es, l)) == Total(es) + 1
    ensures Keys(Bump(es, l)) == Keys(es) + {l}
  {
    if es == [] {
    } else if es[0].name == l {
      assert Bump(es, l)[1..] == es[1..];
    } else {
      BumpTotalKeys(es[1..], l);
      assert Bump(es, l)[1..] == Bump(es[1..], l);
    }
  }

  /** `Bump` keeps labels distinct and counts positive. */
  lemma {:induction false} BumpShape(es: seq<Entry>, l: string)
    ensures DistinctLabels(es) ==> DistinctLabels(Bump(es, l))
    ensures PositiveCounts(es) ==> PositiveCounts(Bump(es, l))
  {
    var r := Bump(es, l);
    if es == [] {
    } else if es[0].name == l {
      assert r[1..] == es[1..];
    } else {
      BumpShape(es[1..], l);
      BumpTotalKeys(es[1..], l);
      assert r[1..] == Bump(es[1..], l);
      if PositiveCounts(es) {
        assert PositiveCounts(es[1..]) by {
          forall i | 0 <= i < |es[1..]|
            ensures es[1..][i].count >= 1
          {
            assert es[1..][i] == es[i + 1];
          }
        }
        forall i | 0 <= i < |r|
          ensures r[i].count >= 1
        {
          if i > 0 {
            assert r[i] == r[1..][i - 1];
          }
        }
      }
    }
  }

  lemma {:induction false} KeysHaveEntries(es: seq<Entry>, i: nat)
    requires i < |es|
    ensures es[i].name in Keys(es)
    decreases i
  {
    if i > 0 {
      KeysHaveEntries(es[1..], i - 1);
      assert es[1..][i - 1] == es[i];
    }
  }

  /** With distinct labels, the lookup of an entry's own label finds it. */
  lemma {:induction false} CountOfEntry(es: seq<Entry>, i: nat)
    requires DistinctLabels(es)
    requires i < |es|
    ensures CountOf(es, es[i].name) == es[i].count
    decreases i
  {
    if i > 0 {
      assert es[1..][i - 1] == es[i];
      KeysHaveEntries(es[1..], i - 1);
      CountOfEntry(es[1..], i - 1);
    }
  }

  /** `Object.entries` of the `reduce` that counts labels, left to right,
      with every label counted from zero. */
  function Summary(ls: seq<string>): seq<Entry>
  {
    if ls == [] then [] else Bump(Summary(ls[..|ls| - 1]), ls[|ls| - 1])
  }

  /** The summary never lists a label twice and never lists a zero count. */
  lemma {:induction false} SummaryDistinct(ls: seq<string>)
    ensures DistinctLabels(Summary(ls)) && PositiveCounts(Summary(ls))
  {
    if ls != [] {
      SummaryDistinct(ls[..|ls| - 1]);
      BumpShape(Summary(ls[..|ls| - 1]), ls[|ls| - 1]);
    }
  }

  /** The summary lists exactly the labels that occur, and its counts add up
      to the number of labels. */
  lemma {:induction false} SummaryKeysTotal(ls: seq<string>)
    ensures Keys(Summary(ls)) == set l | l in ls
    ensures Total(Summary(ls)) == |ls|
  {
    if ls != [] {
      var init, last := ls[..|ls| - 1], ls[|ls| - 1];
      SummaryKeysTotal(init);
      BumpTotalKeys(Summary(init), last);
      assert ls == init + [last];
      assert (set l | l in ls) == (set l | l in init) + {last};
    }
  }

  /** The count the summary gives any label is its number of occurrences. */
  lemma {:induction false} SummaryCounts(ls: seq<string>, k: string)
    ensures CountOf(Summary(ls), k) == Occurrences(ls, k)
  {
    if ls != [] {
      SummaryCounts(ls[..|ls| - 1], k);
      BumpCount(Summary(ls[..|ls| - 1]), ls[|ls| - 1], k);
    }
  }

  /** The summary has one entry per distinct label, each entry's count is
      the number of occurrences of its label, and the counts add up to the
      number of labels. */
  lemma SummaryCorrect(ls: seq<string>)
    ensures DistinctLabels(Summary(ls))
    ensures PositiveCounts(Summary(ls))
    ensures forall k :: k in Keys(Summary(ls)) <==> k in ls
    ensures forall k :: CountOf(Summary(ls), k) == Occurrences(ls, k)
    ensures forall i :: 0 <= i < |Summary(ls)| ==>
              Summary(ls)[i].count == Occurrences(ls, Summary(ls)[i].name)
    ensures Total(Summary(ls)) == |ls|
  {
    var r := Summary(ls);
    SummaryDistinct(ls);
    SummaryKeysTotal(ls);
    forall k
      ensures CountOf(r, k) == Occurrences(ls, k)
    {
      SummaryCounts(ls, k);
    }
    forall i | 0 <= i < |r|
      ensures r[i].count == Occurrences(ls, r[i].name)
    {
      CountOfEntry(r, i);
    }
  }
}
