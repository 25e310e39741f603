/** Python string behaviour the model relies on: truthiness, `str.split()`
    with no separator, and `' '.join(...)`. */
module Text {
  import opened Wrappers

  /** Python truthiness of an optional string: `None` and `""` are falsy. */
  predicate Truthy(s: Option<string>) {
    s.Some? && s.value != ""
  }

  /** The characters `str.isspace()` accepts, which are the separators of
      `str.split()` without arguments. */
  predicate IsSpace(c: char) {
    || ('\U{9}' <= c <= '\U{d}')
    || ('\U{1c}' <= c <= '\U{20}')
    || c == '\U{85}' || c == '\U{a0}' || c == '\U{1680}'
    || ('\U{2000}' <= c <= '\U{200a}')
    || c == '\U{2028}' || c == '\U{2029}' || c == '\U{202f}'
    || c == '\U{205f}' || c == '\U{3000}'
  }

  predicate NoSpace(w: string) {
    forall i :: 0 <= i < |w| ==> !IsSpace(w[i])
  }

  predicate AllSpace(s: string) {
    forall i :: 0 <= i < |s| ==> IsSpace(s[i])
  }

  /** A word of `str.split()`: non-empty and free of separators. */
  predicate IsWord(w: string) {
    |w| > 0 && NoSpace(w)
  }

  predicate AllWords(ws: seq<string>) {
    forall i :: 0 <= i < |ws| ==> IsWord(ws[i])
  }

  /** `s.split()` as a scan: `cur` is the word read so far, emitted at the
      next separator or at the end of the input. */
  function SplitFrom(s: string, cur: string): seq<string>
    decreases |s|
  {
    if s == [] then (if cur == [] then [] else [cur])
    else if IsSpace(s[0]) then (if cur == [] then [] else [cur]) + SplitFrom(s[1..], [])
    else SplitFrom(s[1..], cur + [s[0]])
  }

  /** `s.split()`: the maximal runs of non-separator characters, in order. */
  function Split(s: string): seq<string> {
    SplitFrom(s, [])
  }

  /** `' '.join(ws)`. */
  function Join(ws: seq<string>): string {
    if ws == [] then ""
    else if |ws| == 1 then ws[0]
    else ws[0] + " " + Join(ws[1..])
  }

  /** The characters of `s` that are not separators, in order. */
  function RemoveSpace(s: string): string {
    if s == [] then []
    else if IsSpace(s[0]) then RemoveSpace(s[1..])
    else [s[0]] + RemoveSpace(s[1..])
  }

  function Concat(ws: seq<string>): string {
    if ws == [] then [] else ws[0] + Concat(ws[1..])
  }

  lemma {:induction false} SplitFromWords(s: string, cur: string)
    requires NoSpace(cur)
    ensures AllWords(SplitFrom(s, cur))
    decreases |s|
  {
    if s == [] {
    } else if IsSpace(s[0]) {
      SplitFromWords(s[1..], []);
    } else {
      var next := cur + [s[0]];
      assert NoSpace(next) by {
        forall i | 0 <= i < |next| ensures !IsSpace(next[i]) {
          if i < |cur| { assert next[i] == cur[i]; }
        }
      }
      SplitFromWords(s[1..], next);
    }
  }

  /** Every element of a split is a word: non-empty and free of separators. */
  lemma SplitWords(s: string)
    ensures AllWords(Split(s))
  {
    SplitFromWords(s, []);
  }

  lemma {:induction false} SplitFromEmptyIff(s: string, cur: string)
    ensures SplitFrom(s, cur) == [] <==> cur == [] && AllSpace(s)
    decreases |s|
  {
    if s != [] {
      if IsSpace(s[0]) {
        SplitFromEmptyIff(s[1..], []);
        if cur == [] && AllSpace(s[1..]) {
          assert AllSpace(s) by {
            forall i | 0 <= i < |s| ensures IsSpace(s[i]) {
              if i > 0 { assert s[i] == s[1..][i - 1]; }
            }
          }
        }
      } else {
        SplitFromEmptyIff(s[1..], cur + [s[0]]);
      }
    }
  }

  /** A string splits into no words exactly when it consists of separators. */
  lemma SplitEmptyIff(s: string)
    ensures Split(s) == [] <==> AllSpace(s)
  {
    SplitFromEmptyIff(s, []);
  }

  /** Reading the characters of a word only extends the current word. */
  lemma {:induction false} SplitFromWord(w: string, rest: string, cur: string)
    requires NoSpace(w)
    ensures SplitFrom(w + rest, cur) == SplitFrom(rest, cur + w)
    decreases |w|
  {
    if w == [] {
      assert w + rest == rest && cur + w == cur;
    } else {
      assert (w + rest)[0] == w[0];
      assert (w + rest)[1..] == w[1..] + rest;
      SplitFromWord(w[1..], rest, cur + [w[0]]);
      assert cur + [w[0]] + w[1..] == cur + w;
    }
  }

  lemma SplitSingle(w: string)
    requires IsWord(w)
    ensures Split(w) == [w]
  {
    SplitFromWord(w, [], []);
    assert w + [] == w && [] + w == w;
  }

  lemma SplitJoinStep(w: string, tail: string)
    requires IsWord(w)
    ensures Split(w + " " + tail) == [w] + Split(tail)
  {
    SplitFromWord(w, " " + tail, []);
    assert w + " " + tail == w + (" " + tail);
    assert [] + w == w;
    assert (" " + tail)[0] == ' ' && (" " + tail)[1..] == tail;
  }

  /** Splitting a space-joined list of words gives the words back. */
  lemma {:induction false} SplitJoin(ws: seq<string>)
    requires AllWords(ws)
    ensures Split(Join(ws)) == ws
  {
    if ws == [] {
    } else if |ws| == 1 {
      SplitSingle(ws[0]);
      assert ws == [ws[0]];
    } else {
      assert AllWords(ws[1..]) by {
        forall i | 0 <= i < |ws[1..]| ensures IsWord(ws[1..][i]) {
          assert ws[1..][i] == ws[i + 1];
        }
      }
      SplitJoin(ws[1..]);
      SplitJoinStep(ws[0], Join(ws[1..]));
      assert [ws[0]] + ws[1..] == ws;
    }
  }

  /** Re-splitting a split and re-joined string changes nothing. */
  lemma SplitJoinSplit(s: string)
    ensures Split(Join(Split(s))) == Split(s)
  {
    SplitWords(s);
    SplitJoin(Split(s));
  }

  lemma ConcatCons(w: string, ws: seq<string>)
    ensures Concat([w] + ws) == w + Concat(ws)
  {
    assert ([w] + ws)[0] == w && ([w] + ws)[1..] == ws;
  }

  lemma {:induction false} SplitFromKeepsCharacters(s: string, cur: string)
    ensures Concat(SplitFrom(s, cur)) == cur + RemoveSpace(s)
    decreases |s|
  {
    if s == [] {
      if cur != [] {
        ConcatCons(cur, []);
      }
      assert cur + [] == cur;
    } else if IsSpace(s[0]) {
      SplitFromKeepsCharacters(s[1..], []);
      if cur == [] {
        assert [] + SplitFrom(s[1..], []) == SplitFrom(s[1..], []);
      } else {
        ConcatCons(cur, SplitFrom(s[1..], []));
      }
    } else {
      SplitFromKeepsCharacters(s[1..], cur + [s[0]]);
      assert cur + [s[0]] + RemoveSpace(s[1..]) == cur + ([s[0]] + RemoveSpace(s[1..]));
    }
  }

  /** The words of a split are exactly the non-separator characters of the
      input, in order: nothing is dropped, nothing is invented. */
  lemma SplitKeepsCharacters(s: string)
    ensures Concat(Split(s)) == RemoveSpace(s)
  {
    SplitFromKeepsCharacters(s, []);
    assert [] + RemoveSpace(s) == RemoveSpace(s);
  }
}
