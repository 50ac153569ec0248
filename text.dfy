/** String helpers used by the server: character search (the two ends of the
    greedy brace match), ASCII upper-casing and Array.prototype.join. */
module Text {
  import opened Wrappers

  /** Index of the first occurrence of `c` in `s`, if any. */
  function IndexOf(s: string, c: char): (r: Option<nat>)
    ensures r.Some? ==> r.value < |s| && s[r.value] == c
    ensures r.Some? ==> forall k :: 0 <= k < r.value ==> s[k] != c
    ensures r.None? <==> c !in s
  {
    if |s| == 0 then None
    else if s[0] == c then Some(0)
    else match IndexOf(s[1..], c)
      case None => None
      case Some(k) => Some(k + 1)
  }

  /** Index of the last occurrence of `c` in `s`, if any. */
  function LastIndexOf(s: string, c: char): (r: Option<nat>)
    ensures r.Some? ==> r.value < |s| && s[r.value] == c
    ensures r.Some? ==> forall k :: r.value < k < |s| ==> s[k] != c
    ensures r.None? <==> c !in s
  {
    if |s| == 0 then None
    else if s[|s| - 1] == c then Some(|s| - 1)
    else LastIndexOf(s[..|s| - 1], c)
  }

  /** `needle` occurs in `hay` starting at index `at`. */
  predicate OccursAt(hay: string, needle: string, at: nat)
  {
    at + |needle| <= |hay| && hay[at..at + |needle|] == needle
  }

  /** String.prototype.toUpperCase on one ASCII character; every other
      character is left as it is. */
  function UpperChar(c: char): (u: char)
    ensures 'a' <= c <= 'z' ==> 'A' <= u <= 'Z' && u as int - c as int == 'A' as int - 'a' as int
    ensures !('a' <= c <= 'z') ==> u == c
  {
    if 'a' <= c <= 'z' then (c as int - 'a' as int + 'A' as int) as char else c
  }

  /** Array.prototype.join over strings: the items with `sep` between each
      pair of neighbours. */
  function Join(items: seq<string>, sep: string): string
  {
    if |items| == 0 then ""
    else if |items| == 1 then items[0]
    else items[0] + sep + Join(items[1..], sep)
  }

  /** Where item `i` starts in Join(items, sep): every earlier item with the
      separator that follows it. */
  function Offset(items: seq<string>, sep: string, i: nat): nat
    requires i <= |items|
  {
    if i == 0 then 0 else |items[0]| + |sep| + Offset(items[1..], sep, i - 1)
  }

  /** Each offset is the previous one moved past one item and one separator. */
  lemma {:induction false} OffsetStep(items: seq<string>, sep: string, i: nat)
    requires i < |items|
    ensures Offset(items, sep, i + 1) == Offset(items, sep, i) + |items[i]| + |sep|
  {
    if i > 0 {
      OffsetStep(items[1..], sep, i - 1);
    }
  }

  /** The joined string is as long as the items and the separators between
      them laid end to end. */
  lemma {:induction false} JoinLength(items: seq<string>, sep: string)
    requires |items| > 0
    ensures |Join(items, sep)| + |sep| == Offset(items, sep, |items|)
  {
    if |items| > 1 {
      JoinLength(items[1..], sep);
    }
  }

  /** An occurrence survives putting text after it ... */
  lemma OccursBefore(a: string, b: string, needle: string, at: nat)
    requires OccursAt(a, needle, at)
    ensures OccursAt(a + b, needle, at)
  {
    assert (a + b)[at..at + |needle|] == a[at..at + |needle|];
  }

  /** ... and moves right by the length of text put before it. */
  lemma OccursAfter(a: string, b: string, needle: string, at: nat)
    requires OccursAt(b, needle, at)
    ensures OccursAt(a + b, needle, |a| + at)
  {
    assert (a + b)[|a| + at..|a| + at + |needle|] == b[at..at + |needle|];
  }

  /** Item `i` of the list sits at Offset(items, sep, i) in the joined string. */
  lemma {:induction false} JoinItemAt(items: seq<string>, sep: string, i: nat)
    requires i < |items|
    ensures OccursAt(Join(items, sep), items[i], Offset(items, sep, i))
  {
    if |items| == 1 {
      assert items[0][0..|items[0]|] == items[0];
    } else {
      var rest := items[1..];
      assert Join(items, sep) == items[0] + (sep + Join(rest, sep));
      if i == 0 {
        assert items[0][0..|items[0]|] == items[0];
        OccursBefore(items[0], sep + Join(rest, sep), items[0], 0);
      } else {
        JoinItemAt(rest, sep, i - 1);
        assert items[0] + (sep + Join(rest, sep)) == (items[0] + sep) + Join(rest, sep);
        OccursAfter(items[0] + sep, Join(rest, sep), rest[i - 1], Offset(rest, sep, i - 1));
      }
    }
  }

  /** The separator follows every item but the last. */
  lemma {:induction false} JoinSepAt(items: seq<string>, sep: string, i: nat)
    requires i + 1 < |items|
    ensures OccursAt(Join(items, sep), sep, Offset(items, sep, i) + |items[i]|)
  {
    var rest := items[1..];
    assert Join(items, sep) == (items[0] + sep) + Join(rest, sep);
    if i == 0 {
      OccursBetween(items[0], sep, Join(rest, sep));
    } else {
      JoinSepAt(rest, sep, i - 1);
      OccursAfter(items[0] + sep, Join(rest, sep), sep, Offset(rest, sep, i - 1) + |rest[i - 1]|);
    }
  }

  /** Joining two non-empty lists is joining each and putting one separator
      between the halves. */
  lemma {:induction false} JoinAppend(a: seq<string>, b: seq<string>, sep: string)
    requires |a| > 0 && |b| > 0
    ensures Join(a + b, sep) == Join(a, sep) + sep + Join(b, sep)
  {
    if |a| > 1 {
      assert (a + b)[1..] == a[1..] + b;
      JoinAppend(a[1..], b, sep);
    } else {
      assert (a + b)[1..] == b;
    }
  }

  /** A string placed between two others occurs right after the first. */
  lemma OccursBetween(x: string, needle: string, y: string)
    ensures OccursAt(x + needle + y, needle, |x|)
  {
    assert (x + needle + y)[|x|..|x| + |needle|] == needle;
  }

  /** Where each of five pieces sits in their concatenation. */
  lemma PiecesAt(a: string, b: string, c: string, d: string, e: string)
    ensures var m := a + b + c + d + e;
      && OccursAt(m, a, 0)
      && OccursAt(m, b, |a|)
      && OccursAt(m, c, |a| + |b|)
      && OccursAt(m, d, |a| + |b| + |c|)
      && OccursAt(m, e, |a| + |b| + |c| + |d|)
  {
    var m := a + b + c + d + e;
    OccursBetween("", a, b + c + d + e);
    assert m == a + b + (c + d + e);
    OccursBetween(a, b, c + d + e);
    assert m == (a + b) + c + (d + e);
    OccursBetween(a + b, c, d + e);
    OccursBetween(a + b + c, d, e);
    OccursBetween(a + b + c + d, e, "");
  }
}
