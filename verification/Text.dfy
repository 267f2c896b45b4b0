/** Text handling shared by the whole pipeline: whitespace, trimming, and small helpers.

    The character classes of the regular expressions and the digest are parameters, so every
    result below holds for whatever set of whitespace characters, furniture pattern and hash
    function the program runs with. */
module Text {

  datatype Option<+T> = None | Some(value: T)

  datatype Result<+T, +E> = Success(value: T) | Failure(error: E)

  datatype TextRules = TextRules(
    isSpace: char -> bool,          // the class written \s, which is also what trim() removes
    isFurniture: string -> bool,    // isLikelyDocumentFurniture
    paragraphBreaks: string -> nat, // how often the paragraph separator pattern matches
    looksInjected: string -> bool,  // the phrases of a possible prompt injection
    looksSecret: string -> bool,    // the patterns of secret-like text
    looksPersonal: string -> bool,  // the pattern of personal data
    hash: string -> string          // hashText
  )

  /** The one item of a conditional push. */
  function When<T>(condition: bool, item: T): seq<T> {
    if condition then [item] else []
  }

  function Max(a: int, b: int): int { if a >= b then a else b }

  function Min(a: int, b: int): int { if a <= b then a else b }

  /** The negation of the test `text.trim()`. */
  predicate IsBlank(t: TextRules, s: string) {
    forall i :: 0 <= i < |s| ==> t.isSpace(s[i])
  }

  /** The first position of s[start..end] that is not whitespace, or end. */
  function SkipSpace(t: TextRules, s: string, start: nat, end: nat): (k: nat)
    requires start <= end <= |s|
    ensures start <= k <= end
    ensures forall i :: start <= i < k ==> t.isSpace(s[i])
    ensures k < end ==> !t.isSpace(s[k])
    decreases end - start
  {
    if start < end && t.isSpace(s[start]) then SkipSpace(t, s, start + 1, end) else start
  }

  /** The position after the last one of s[start..end] that is not whitespace, or start. */
  function SkipSpaceBack(t: TextRules, s: string, start: nat, end: nat): (k: nat)
    requires start <= end <= |s|
    ensures start <= k <= end
    ensures forall i :: k <= i < end ==> t.isSpace(s[i])
    ensures start < k ==> !t.isSpace(s[k - 1])
    decreases end - start
  {
    if start < end && t.isSpace(s[end - 1]) then SkipSpaceBack(t, s, start, end - 1) else end
  }

  function Trim(t: TextRules, s: string): string {
    var first := SkipSpace(t, s, 0, |s|);
    s[first..SkipSpaceBack(t, s, first, |s|)]
  }

  /** A string is blank exactly when trimming it leaves nothing. */
  lemma TrimEmpty(t: TextRules, s: string)
    ensures Trim(t, s) == "" <==> IsBlank(t, s)
  {
    var first := SkipSpace(t, s, 0, |s|);
    if first < |s| {
      assert !t.isSpace(s[first]);
    }
  }

  /** Trimming a longer stretch of the same text never leaves less. */
  lemma TrimGrows(t: TextRules, body: string, a: nat, b: nat, lo: nat, hi: nat)
    requires lo <= a <= b <= hi <= |body|
    ensures |Trim(t, body[a..b])| <= |Trim(t, body[lo..hi])|
  {
    var inner, outer := body[a..b], body[lo..hi];
    var first := SkipSpace(t, inner, 0, |inner|);
    var last := SkipSpaceBack(t, inner, first, |inner|);
    if first < last {
      assert inner[first] == outer[first + a - lo];
      assert inner[last - 1] == outer[last - 1 + a - lo];
      var ofirst := SkipSpace(t, outer, 0, |outer|);
      assert ofirst <= first + a - lo;
      assert last + a - lo <= SkipSpaceBack(t, outer, ofirst, |outer|);
    }
  }

  lemma ConcatAssoc<T>(a: seq<T>, b: seq<T>, c: seq<T>)
    ensures (a + b) + c == a + (b + c)
  {
  }

  lemma Append3<T>(o: seq<T>, a: seq<T>, b: seq<T>, c: seq<T>)
    ensures o + a + b + c == o + (a + b + c)
  {
    ConcatAssoc(o, a, b);
    ConcatAssoc(o, a + b, c);
  }

  lemma Append5<T>(o: seq<T>, a: seq<T>, b: seq<T>, c: seq<T>, d: seq<T>, e: seq<T>)
    ensures o + a + b + c + d + e == o + (a + b + c + d + e)
  {
    Append3(o, a, b, c);
    ConcatAssoc(o, a + b + c, d);
    ConcatAssoc(o, a + b + c + d, e);
  }

  lemma Append6<T>(o: seq<T>, a: seq<T>, b: seq<T>, c: seq<T>, d: seq<T>, e: seq<T>, f: seq<T>)
    ensures o + a + b + c + d + e + f == o + (a + b + c + d + e + f)
  {
    Append5(o, a, b, c, d, e);
    ConcatAssoc(o, a + b + c + d + e, f);
  }

  lemma SliceWithin<T>(s: seq<T>, i: nat, j: nat, a: nat, b: nat)
    requires i <= j <= |s| && a <= b <= j - i
    ensures s[i..j][a..b] == s[i + a..i + b]
  {
    forall k | a <= k < b ensures s[i..j][k] == s[i + k] {}
    assert forall k :: 0 <= k < b - a ==> s[i..j][a..b][k] == s[i..j][a + k];
  }

  function Flatten<T>(xss: seq<seq<T>>): seq<T> {
    if xss == [] then [] else xss[0] + Flatten(xss[1..])
  }

  lemma {:induction false} FlattenAppend<T>(xss: seq<seq<T>>, yss: seq<seq<T>>)
    ensures Flatten(xss + yss) == Flatten(xss) + Flatten(yss)
  {
    if xss == [] {
      assert xss + yss == yss;
    } else {
      FlattenAppend(xss[1..], yss);
      assert (xss + yss)[1..] == xss[1..] + yss;
      ConcatAssoc(xss[0], Flatten(xss[1..]), Flatten(yss));
    }
  }

  /** The distinct values of a list, first occurrences in order. */
  function Unique(ids: seq<string>): (r: seq<string>)
    ensures forall id :: id in r <==> id in ids
    ensures forall i, j :: 0 <= i < j < |r| ==> r[i] != r[j]
  {
    if ids == [] then []
    else
      var last, before := ids[|ids| - 1], Unique(ids[..|ids| - 1]);
      assert ids == ids[..|ids| - 1] + [last];
      if last in before then before else before + [last]
  }
}
