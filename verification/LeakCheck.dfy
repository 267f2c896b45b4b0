/** The connector contract's check that a diagnostic message does not copy a record body. */
module LeakCheck {
  import opened Text

  const WINDOW := 48
  const SHORTEST_BODY := 24

  predicate Occurs(text: string, part: string, j: nat) {
    j + |part| <= |text| && text[j..j + |part|] == part
  }

  predicate Includes(text: string, part: string) {
    exists j: nat :: j <= |text| && Occurs(text, part, j)
  }

  /** The tiles at 0, 48, 96, ... that start before `limit`. */
  function Tiles(value: string, k: nat): set<string>
    requires WINDOW * k <= |value|
  {
    if k == 0 then {} else Tiles(value, k - 1) + {value[WINDOW * (k - 1)..WINDOW * k]}
  }

  lemma {:induction false} TilesMeaning(value: string, k: nat)
    requires WINDOW * k <= |value|
    ensures forall w :: w in Tiles(value, k) <==> exists i :: 0 <= i < k && w == value[WINDOW * i..WINDOW * i + WINDOW]
  {
    if k > 0 { TilesMeaning(value, k - 1); }
  }

  /** How many tiles start before the last window. */
  function TileCount(length: nat): (k: nat)
    ensures length > WINDOW ==> WINDOW * k <= length && WINDOW * k >= length - WINDOW
    ensures length > WINDOW ==> forall i: nat :: i < k <==> WINDOW * i < length - WINDOW
  {
    if length <= WINDOW then 0 else (length - 1) / WINDOW
  }

  function Windows(value: string): set<string> {
    if |value| <= WINDOW then {value}
    else Tiles(value, TileCount(|value|)) + {value[|value| - WINDOW..]}
  }

  method LeakCheckWindows(value: string) returns (windows: set<string>)
    ensures windows == Windows(value)
  {
    if |value| <= WINDOW {
      return {value};
    }
    hide TileCount;
    windows := {};
    var index := 0;
    ghost var k := 0;
    while index < |value| - WINDOW
      invariant index == WINDOW * k && k <= TileCount(|value|)
      invariant windows == Tiles(value, k)
    {
      windows := windows + {value[index..index + WINDOW]};
      index := index + WINDOW;
      k := k + 1;
    }
    windows := windows + {value[|value| - WINDOW..]};
  }

  /** `normalize` collapses whitespace, trims and lowers the case. */
  predicate CopiesBody(normalize: string -> string, message: string, body: string) {
    var text, content := normalize(message), normalize(body);
    |content| >= SHORTEST_BODY && (Includes(text, content) || exists w :: w in Windows(content) && Includes(text, w))
  }

  predicate MessageCopiesRecordBody(normalize: string -> string, message: string, bodies: seq<string>) {
    normalize(message) != "" && exists i :: 0 <= i < |bodies| && CopiesBody(normalize, message, bodies[i])
  }

  // ---- What is detected ----

  /** The two texts have `n` consecutive characters in common, at i in a and at j in b. */
  predicate ShareAt(a: string, b: string, n: nat, i: nat, j: nat) {
    i + n <= |a| && j + n <= |b| && a[i..i + n] == b[j..j + n]
  }

  ghost predicate Share(a: string, b: string, n: nat) {
    exists i: nat, j: nat :: ShareAt(a, b, n, i, j)
  }

  lemma ShareInside(a: string, b: string, n: nat, i: nat, j: nat, from: nat, size: nat)
    requires ShareAt(a, b, n, i, j) && i <= from && from + size <= i + n
    ensures Includes(b, a[from..from + size])
  {
    SliceWithin(a, i, i + n, from - i, from - i + size);
    SliceWithin(b, j, j + n, from - i, from - i + size);
    assert Occurs(b, a[from..from + size], j + (from - i));
  }

  /** How many consecutive characters of a body of this length are sure to hold a whole window. */
  function DetectionBound(length: nat): nat {
    if length <= WINDOW then length else Min(2 * WINDOW - 1, length - 1)
  }

  /** Any run of that many characters of a text holds a whole window. */
  lemma RunHoldsWindow(value: string, i: nat, n: nat) returns (start: nat)
    requires n >= DetectionBound(|value|) && i + n <= |value|
    ensures i <= start && start + Min(WINDOW, |value|) <= i + n
    ensures value[start..start + Min(WINDOW, |value|)] in Windows(value)
  {
    if |value| <= WINDOW {
      start := 0;
      assert value[0..|value|] == value;
    } else {
      start := WindowInside(value, i, n);
    }
  }

  lemma WindowInside(value: string, i: nat, n: nat) returns (start: nat)
    requires |value| > WINDOW && n >= DetectionBound(|value|) && i + n <= |value|
    ensures i <= start && start + WINDOW <= i + n && value[start..start + WINDOW] in Windows(value)
  {
    hide TileCount, Tiles;
    var k := (i + WINDOW - 1) / WINDOW;
    TilesMeaning(value, TileCount(|value|));
    if WINDOW * k < |value| - WINDOW {
      start := WINDOW * k;
      assert value[start..start + WINDOW] in Tiles(value, TileCount(|value|));
    } else {
      start := |value| - WINDOW;
      assert value[start..start + WINDOW] == value[start..];
    }
  }

  /** A message sharing that many consecutive characters with a body that is long enough to be
      checked is flagged. */
  lemma LongRunIsFlagged(normalize: string -> string, message: string, bodies: seq<string>, b: nat, n: nat)
    requires b < |bodies| && |normalize(bodies[b])| >= SHORTEST_BODY
    requires n >= DetectionBound(|normalize(bodies[b])|) && Share(normalize(bodies[b]), normalize(message), n)
    ensures MessageCopiesRecordBody(normalize, message, bodies)
  {
    var content, text := normalize(bodies[b]), normalize(message);
    var i: nat, j: nat :| ShareAt(content, text, n, i, j);
    var start := RunHoldsWindow(content, i, n);
    ShareInside(content, text, n, i, j, start, Min(WINDOW, |content|));
    assert CopiesBody(normalize, message, bodies[b]);
  }

  lemma WindowIsSlice(value: string, w: string) returns (i: nat)
    requires w in Windows(value)
    ensures |w| == if |value| <= WINDOW then |value| else WINDOW
    ensures i + |w| <= |value| && value[i..i + |w|] == w
    ensures i == 0 || i >= WINDOW || i == |value| - WINDOW
  {
    if |value| <= WINDOW {
      return 0;
    }
    if w == value[|value| - WINDOW..] {
      return |value| - WINDOW;
    }
    TilesMeaning(value, TileCount(|value|));
    var k :| 0 <= k < TileCount(|value|) && w == value[WINDOW * k..WINDOW * k + WINDOW];
    i := WINDOW * k;
  }

  /** A flagged message really copies: it shares a window, or a whole shorter body, with some body. */
  lemma FlaggedCopies(normalize: string -> string, message: string, bodies: seq<string>) returns (b: nat)
    requires MessageCopiesRecordBody(normalize, message, bodies)
    ensures b < |bodies| && |normalize(bodies[b])| >= SHORTEST_BODY
    ensures Share(normalize(bodies[b]), normalize(message),
                  if |normalize(bodies[b])| < WINDOW then |normalize(bodies[b])| else WINDOW)
  {
    var at :| 0 <= at < |bodies| && CopiesBody(normalize, message, bodies[at]);
    b := at;
    var content, text := normalize(bodies[b]), normalize(message);
    if Includes(text, content) {
      WholeIsShared(content, text);
    } else {
      var w :| w in Windows(content) && Includes(text, w);
      var i := WindowIsSlice(content, w);
      var j: nat :| j <= |text| && Occurs(text, w, j);
      assert ShareAt(content, text, |w|, i, j);
    }
  }

  lemma WholeIsShared(content: string, text: string)
    requires Includes(text, content)
    ensures Share(content, text, if |content| < WINDOW then |content| else WINDOW)
  {
    var n := if |content| < WINDOW then |content| else WINDOW;
    var j: nat :| j <= |text| && Occurs(text, content, j);
    SliceWithin(text, j, j + |content|, 0, n);
    assert ShareAt(content, text, n, 0, j);
  }

  /** A body of 24 to 48 characters is flagged exactly when the message contains all of it. */
  lemma ShortBodyExact(normalize: string -> string, message: string, body: string)
    requires SHORTEST_BODY <= |normalize(body)| <= WINDOW
    ensures MessageCopiesRecordBody(normalize, message, [body]) <==> Includes(normalize(message), normalize(body))
  {
    var content, text := normalize(body), normalize(message);
    assert Windows(content) == {content};
    assert [body][0] == body;
    assert CopiesBody(normalize, message, body) <==> Includes(text, content);
  }

  // ---- The bound is sharp ----

  lemma NotIncluded(text: string, part: string, c: char)
    requires c in part && c !in text
    ensures !Includes(text, part)
  {
    var at :| 0 <= at < |part| && part[at] == c;
    forall j: nat | j <= |text| ensures !Occurs(text, part, j) {
      if j + |part| <= |text| {
        assert text[j..j + |part|][at] == text[j + at];
      }
    }
  }

  /** The longest run that can stay unnoticed: from the second character up to the bound. */
  function Inner(body: string): string
    requires |body| >= SHORTEST_BODY
  {
    body[1..DetectionBound(|body|)]
  }

  /** One character less is not enough, whatever the length of the body: when no character around the
      run also occurs in it, as with a body of distinct characters, copying the run goes unnoticed. */
  lemma RunBelowBoundUnnoticed(normalize: string -> string, body: string)
    requires |body| >= SHORTEST_BODY && normalize(body) == body && normalize(Inner(body)) == Inner(body)
    requires forall k :: 0 <= k < |body| && !(1 <= k < DetectionBound(|body|)) ==> body[k] !in Inner(body)
    ensures |Inner(body)| == DetectionBound(|body|) - 1 && Share(body, Inner(body), |Inner(body)|)
    ensures !MessageCopiesRecordBody(normalize, Inner(body), [body])
  {
    var text := Inner(body);
    assert ShareAt(body, text, |text|, 1, 0);
    NotIncluded(text, body, body[0]);
    forall w | w in Windows(body) ensures !Includes(text, w) {
      var c := WindowSticksOut(body, w);
      NotIncluded(text, w, c);
    }
    hide Windows, Includes;
    assert !CopiesBody(normalize, text, body);
  }

  /** Each window has a character outside the run. */
  lemma WindowSticksOut(body: string, w: string) returns (c: char)
    requires |body| >= SHORTEST_BODY && w in Windows(body)
    requires forall k :: 0 <= k < |body| && !(1 <= k < DetectionBound(|body|)) ==> body[k] !in Inner(body)
    ensures c in w && c !in Inner(body)
  {
    var i := WindowIsSlice(body, w);
    if i == 0 {
      c := body[0];
      assert w[0] == c;
    } else {
      c := body[i + WINDOW - 1];
      assert w[WINDOW - 1] == c;
    }
  }

  /** A body of the given length whose inner run is all 'a', with 'b' around it. */
  function SharpBody(length: nat): (body: string)
    requires length >= SHORTEST_BODY
    ensures |body| == length
    ensures forall k :: 0 <= k < length ==> body[k] == if 1 <= k < DetectionBound(length) then 'a' else 'b'
  {
    seq(length, k => if 1 <= k < DetectionBound(length) then 'a' else 'b')
  }

  /** Normalization leaves that body and its inner run, lower-case letters without whitespace, as they are. */
  predicate Fixes(normalize: string -> string, length: nat)
    requires length >= SHORTEST_BODY
  {
    normalize(SharpBody(length)) == SharpBody(length) && normalize(Inner(SharpBody(length))) == Inner(SharpBody(length))
  }

  ghost predicate Suffices(normalize: string -> string, length: nat, n: nat) {
    forall body, message :: |normalize(body)| == length && Share(normalize(body), normalize(message), n) ==>
      MessageCopiesRecordBody(normalize, message, [body])
  }

  /** For bodies of a given length, sharing n consecutive characters is always noticed exactly when n
      reaches the bound: 95 from 96 characters on, one less than the length from 49 to 96, and the
      whole body below that. */
  lemma BoundIsExact(normalize: string -> string, length: nat, n: nat)
    requires length >= SHORTEST_BODY && Fixes(normalize, length)
    ensures Suffices(normalize, length, n) <==> n >= DetectionBound(length)
  {
    hide MessageCopiesRecordBody, Share;
    if n >= DetectionBound(length) {
      forall body, message | |normalize(body)| == length && Share(normalize(body), normalize(message), n)
        ensures MessageCopiesRecordBody(normalize, message, [body])
      {
        assert [body][0] == body;
        LongRunIsFlagged(normalize, message, [body], 0, n);
      }
    } else {
      var body := SharpBody(length);
      RunBelowBoundUnnoticed(normalize, body);
      ShareLess(body, Inner(body), |Inner(body)|, n);
      assert |normalize(body)| == length;
    }
  }

  lemma ShareLess(a: string, b: string, n: nat, m: nat)
    requires Share(a, b, n) && m <= n
    ensures Share(a, b, m)
  {
    var i: nat, j: nat :| ShareAt(a, b, n, i, j);
    SliceWithin(a, i, i + n, 0, m);
    SliceWithin(b, j, j + n, 0, m);
    assert ShareAt(a, b, m, i, j);
  }
}
