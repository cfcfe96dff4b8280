/** Texts built from pieces, and where a piece stands in such a text. */
module Texts {

  /** The pattern stands in the text starting at the given offset. */
  predicate OccursAt(s: string, pattern: string, at: nat) {
    at + |pattern| <= |s| && s[at..at + |pattern|] == pattern
  }

  /** Rust's `str::ends_with`. */
  predicate EndsWith(s: string, suffix: string) {
    |suffix| <= |s| && s[|s| - |suffix|..] == suffix
  }

  /** The pieces of a text, joined in order. */
  function Concat(parts: seq<string>): string {
    if parts == [] then "" else Concat(parts[..|parts| - 1]) + parts[|parts| - 1]
  }

  /** Where a piece starts in the joined text: after all the pieces before it. */
  function PartOffset(parts: seq<string>, i: nat): nat
    requires i <= |parts|
  {
    |Concat(parts[..i])|
  }

  lemma AppendEmpty(a: string)
    ensures "" + a == a && a + "" == a
  {
  }

  lemma AppendAssoc(a: string, b: string, c: string)
    ensures a + b + c == a + (b + c)
  {
  }

  lemma OccursInMiddle(a: string, b: string, c: string)
    ensures OccursAt(a + b + c, b, |a|)
  {
    assert (a + b + c)[|a|..|a| + |b|] == b;
  }

  lemma OccursAtEnd(a: string, b: string)
    ensures OccursAt(a + b, b, |a|)
  {
    assert (a + b)[|a|..] == b;
  }

  lemma PrefixOfAppend(a: string, b: string, m: nat)
    requires m <= |a|
    ensures (a + b)[..m] == a[..m]
  {
  }

  /** A pattern found in a prefix of a string is found there in the string. */
  lemma OccursInPrefix(s: string, m: nat, pattern: string, at: nat)
    requires m <= |s| && OccursAt(s[..m], pattern, at)
    ensures OccursAt(s, pattern, at)
  {
    assert s[at..at + |pattern|] == s[..m][at..at + |pattern|];
  }

  /** An occurrence inside an occurring piece is an occurrence in the whole text. */
  lemma OccursWithin(s: string, piece: string, i: nat, pattern: string, j: nat)
    requires OccursAt(s, piece, i) && OccursAt(piece, pattern, j)
    ensures OccursAt(s, pattern, i + j)
  {
    forall m | 0 <= m < |pattern|
      ensures s[i + j..i + j + |pattern|][m] == pattern[m]
    {
      assert s[i..i + |piece|][j + m] == piece[j + m];
    }
  }

  lemma EndsWithTail(front: string, tail: string)
    ensures EndsWith(front + tail, tail)
  {
    assert (front + tail)[|front|..] == tail;
  }

  lemma EndsWithTrans(s: string, middle: string, suffix: string)
    requires EndsWith(s, middle) && EndsWith(middle, suffix)
    ensures EndsWith(s, suffix)
  {
    forall i | 0 <= i < |suffix|
      ensures s[|s| - |suffix|..][i] == suffix[i]
    {
      assert s[|s| - |middle|..][|middle| - |suffix| + i] == middle[|middle| - |suffix| + i];
    }
  }

  /** Joining two lists of pieces joins their texts. */
  lemma {:induction false} ConcatAppend(a: seq<string>, b: seq<string>)
    ensures Concat(a + b) == Concat(a) + Concat(b)
    decreases |b|
  {
    if b == [] {
      assert a + b == a;
      AppendEmpty(Concat(a));
    } else {
      var c := b[..|b| - 1];
      assert (a + b)[..|a + b| - 1] == a + c;
      ConcatAppend(a, c);
      AppendAssoc(Concat(a), Concat(c), b[|b| - 1]);
    }
  }

  lemma ConcatOne(x: string)
    ensures Concat([x]) == x
  {
    assert [x][..0] == [];
    AppendEmpty(x);
  }

  lemma ConcatTwo(x: string, y: string)
    ensures Concat([x, y]) == x + y
  {
    assert [x, y][..1] == [x];
    ConcatOne(x);
  }

  lemma ConcatFive(a: string, b: string, c: string, d: string, e: string)
    ensures Concat([a, b, c, d, e]) == a + b + c + d + e
  {
    ConcatTwo(a, b);
    assert [a, b, c][..2] == [a, b];
    assert Concat([a, b, c]) == a + b + c;
    assert [a, b, c, d][..3] == [a, b, c];
    assert Concat([a, b, c, d]) == a + b + c + d;
    assert [a, b, c, d, e][..4] == [a, b, c, d];
  }

  lemma SplitAround(parts: seq<string>, i: nat, j: nat)
    requires i <= j <= |parts|
    ensures parts == parts[..i] + parts[i..j] + parts[j..]
  {
  }

  /** Each piece stands in the joined text at its offset. */
  lemma ConcatPart(parts: seq<string>, i: nat)
    requires i < |parts|
    ensures OccursAt(Concat(parts), parts[i], PartOffset(parts, i))
  {
    SplitAround(parts, i, i + 1);
    assert parts[i..i + 1] == [parts[i]];
    ConcatAppend(parts[..i] + [parts[i]], parts[i + 1..]);
    ConcatAppend(parts[..i], [parts[i]]);
    ConcatOne(parts[i]);
    OccursInMiddle(Concat(parts[..i]), parts[i], Concat(parts[i + 1..]));
  }

  /** Two neighbouring pieces stand together in the joined text at the first one's offset. */
  lemma ConcatPair(parts: seq<string>, i: nat)
    requires i + 1 < |parts|
    ensures OccursAt(Concat(parts), parts[i] + parts[i + 1], PartOffset(parts, i))
  {
    SplitAround(parts, i, i + 2);
    assert parts[i..i + 2] == [parts[i], parts[i + 1]];
    ConcatAppend(parts[..i] + [parts[i], parts[i + 1]], parts[i + 2..]);
    ConcatAppend(parts[..i], [parts[i], parts[i + 1]]);
    ConcatTwo(parts[i], parts[i + 1]);
    OccursInMiddle(Concat(parts[..i]), parts[i] + parts[i + 1], Concat(parts[i + 2..]));
  }

  /** The second piece follows the first. */
  lemma ConcatSecond(parts: seq<string>)
    requires 2 <= |parts|
    ensures OccursAt(Concat(parts), parts[1], |parts[0]|)
  {
    ConcatPart(parts, 1);
    assert parts[..1] == [parts[0]];
    ConcatOne(parts[0]);
  }

  /** The joined text starts with the first piece and ends with the last. */
  lemma ConcatEnds(parts: seq<string>)
    requires parts != []
    ensures |parts[0]| <= |Concat(parts)| && Concat(parts)[..|parts[0]|] == parts[0]
    ensures EndsWith(Concat(parts), parts[|parts| - 1])
  {
    ConcatPart(parts, 0);
    assert parts[..0] == [];
    EndsWithTail(Concat(parts[..|parts| - 1]), parts[|parts| - 1]);
  }
}
