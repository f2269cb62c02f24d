/** Python's `str.split()` with no separator, which the inference path uses
    to approximate the number of generated tokens. */
module PyText {

  /** `str.isspace()` for one character: the characters `str.split()` treats
      as separators (ASCII whitespace, the information separators 0x1C-0x1F,
      and the Unicode space and line/paragraph separators). */
  predicate IsSpace(c: char) {
    var n := c as int;
    n == 0x20 || 0x09 <= n <= 0x0D || 0x1C <= n <= 0x1F || n == 0x85 || n == 0xA0
    || n == 0x1680 || 0x2000 <= n <= 0x200A || n == 0x2028 || n == 0x2029
    || n == 0x202F || n == 0x205F || n == 0x3000
  }

  /** A word: a non-empty run of non-whitespace characters. */
  predicate IsWord(w: string) {
    w != [] && forall i :: 0 <= i < |w| ==> !IsSpace(w[i])
  }

  predicate AllSpace(s: string) {
    forall i :: 0 <= i < |s| ==> IsSpace(s[i])
  }

  /** The characters of `s` that are not whitespace, in order. */
  function NonSpace(s: string): string {
    if s == [] then [] else (if IsSpace(s[0]) then [] else [s[0]]) + NonSpace(s[1..])
  }

  function Concat(ws: seq<string>): string {
    if ws == [] then [] else ws[0] + Concat(ws[1..])
  }

  /** `" ".join(ws)`. */
  function Join(ws: seq<string>): string {
    if ws == [] then [] else if |ws| == 1 then ws[0] else ws[0] + " " + Join(ws[1..])
  }

  /** Length of the word that `s` starts with. */
  function WordLen(s: string): (n: nat)
    requires s != [] && !IsSpace(s[0])
    ensures 1 <= n <= |s|
    ensures IsWord(s[..n])
    ensures n < |s| ==> IsSpace(s[n])
  {
    if |s| == 1 || IsSpace(s[1]) then 1
    else
      var m := WordLen(s[1..]);
      assert s[..m + 1] == [s[0]] + s[1..][..m];
      m + 1
  }

  lemma {:induction false} NonSpaceAppend(a: string, b: string)
    ensures NonSpace(a + b) == NonSpace(a) + NonSpace(b)
    decreases |a|
  {
    if a != [] {
      assert (a + b)[1..] == a[1..] + b;
      NonSpaceAppend(a[1..], b);
    } else {
      assert a + b == b;
    }
  }

  lemma {:induction false} NonSpaceOfWord(w: string)
    requires forall i :: 0 <= i < |w| ==> !IsSpace(w[i])
    ensures NonSpace(w) == w
    decreases |w|
  {
    if w != [] {
      NonSpaceOfWord(w[1..]);
    }
  }

  /** `s.split()`: the maximal runs of non-whitespace characters of `s`, in
      order. Each piece is a word, and the pieces together hold exactly the
      non-whitespace characters of `s`. */
  function Split(s: string): (words: seq<string>)
    ensures forall i :: 0 <= i < |words| ==> IsWord(words[i])
    ensures Concat(words) == NonSpace(s)
    decreases |s|
  {
    if s == [] then []
    else if IsSpace(s[0]) then
      Split(s[1..])
    else
      var n := WordLen(s);
      var rest := Split(s[n..]);
      NonSpaceAppend(s[..n], s[n..]);
      NonSpaceOfWord(s[..n]);
      assert s[..n] + s[n..] == s;
      [s[..n]] + rest
  }

  /** The approximate token count: `len(s.split())`. It is zero exactly
      when the text is empty or all whitespace, so an empty response counts
      zero tokens, and never more than the text's non-whitespace
      characters. */
  function WordCount(s: string): (n: nat)
    ensures n == 0 <==> AllSpace(s)
    ensures n <= |NonSpace(s)|
  {
    ConcatLength(Split(s));
    NonSpaceEmpty(s);
    |Split(s)|
  }

  lemma {:induction false} ConcatLength(ws: seq<string>)
    requires forall i :: 0 <= i < |ws| ==> IsWord(ws[i])
    ensures |ws| <= |Concat(ws)|
    ensures Concat(ws) == [] <==> ws == []
  {
    if ws != [] {
      ConcatLength(ws[1..]);
    }
  }

  lemma {:induction false} NonSpaceEmpty(s: string)
    ensures NonSpace(s) == [] <==> AllSpace(s)
    decreases |s|
  {
    if s != [] {
      NonSpaceEmpty(s[1..]);
      if AllSpace(s[1..]) && IsSpace(s[0]) {
        forall i | 0 <= i < |s| ensures IsSpace(s[i]) {
          if i > 0 { assert s[i] == s[1..][i - 1]; }
        }
      }
    }
  }

  /** Whitespace only separates: splitting around one whitespace character
      is splitting the two sides apart. */
  lemma {:induction false} SplitAtSpace(a: string, c: char, b: string)
    requires IsSpace(c)
    ensures Split(a + [c] + b) == Split(a) + Split(b)
    decreases |a|
  {
    var s := a + [c] + b;
    if a == [] {
      assert s[1..] == b;
    } else if IsSpace(a[0]) {
      assert s[1..] == a[1..] + [c] + b;
      SplitAtSpace(a[1..], c, b);
    } else {
      var n := WordLen(a);
      if n < |a| {
        SplitAtSpace(a[n..], c, b);
      }
      SplitAfterWord(a, c, b);
    }
  }

  /** The word case of `SplitAtSpace`: a word at the front of `a` ends
      where it ends in `a`, and the rest is split as before. */
  lemma SplitAfterWord(a: string, c: char, b: string)
    requires a != [] && !IsSpace(a[0]) && IsSpace(c)
    requires WordLen(a) < |a| ==>
      Split(a[WordLen(a)..] + [c] + b) == Split(a[WordLen(a)..]) + Split(b)
    ensures Split(a + [c] + b) == Split(a) + Split(b)
  {
    var s := a + [c] + b;
    var n := WordLen(a);
    WordSurvivesSpace(a, c, b);
    RestAfterWord(a, c, b);
    SplitFront(s);
    SplitFront(a);
    SeqAssoc([a[..n]], Split(a[n..]), Split(b));
  }

  /** Appending whitespace and more text leaves the leading word of `a`. */
  lemma WordSurvivesSpace(a: string, c: char, b: string)
    requires a != [] && !IsSpace(a[0]) && IsSpace(c)
    ensures (a + [c] + b) != [] && !IsSpace((a + [c] + b)[0])
    ensures WordLen(a + [c] + b) == WordLen(a)
    ensures (a + [c] + b)[..WordLen(a)] == a[..WordLen(a)]
  {
    WordLenPrefix(a, [c] + b);
    assert a + [c] + b == a + ([c] + b);
  }

  /** What follows the leading word of `a + [c] + b` splits as what
      follows it in `a`, then `b`. */
  lemma RestAfterWord(a: string, c: char, b: string)
    requires a != [] && !IsSpace(a[0]) && IsSpace(c)
    requires WordLen(a) < |a| ==>
      Split(a[WordLen(a)..] + [c] + b) == Split(a[WordLen(a)..]) + Split(b)
    ensures Split((a + [c] + b)[WordLen(a)..]) == Split(a[WordLen(a)..]) + Split(b)
  {
    var s := a + [c] + b;
    var n := WordLen(a);
    if n == |a| {
      assert s[n..] == [c] + b;
      assert s[n..][1..] == b;
      assert a[n..] == [];
    } else {
      assert s[n..] == a[n..] + [c] + b;
    }
  }

  /** One step of `Split` on text that starts with a word. */
  lemma SplitFront(s: string)
    requires s != [] && !IsSpace(s[0])
    ensures Split(s) == [s[..WordLen(s)]] + Split(s[WordLen(s)..])
  {
  }

  lemma SeqAssoc<T>(x: seq<T>, y: seq<T>, z: seq<T>)
    ensures x + (y + z) == x + y + z
  {
  }

  /** The word at the front of `a` is not extended by what follows when
      that starts with whitespace or `a` already ends its word early. */
  lemma {:induction false} WordLenPrefix(a: string, b: string)
    requires a != [] && !IsSpace(a[0])
    requires WordLen(a) < |a| || (b != [] && IsSpace(b[0]))
    ensures WordLen(a + b) == WordLen(a)
    decreases |a|
  {
    var s := a + b;
    assert s[0] == a[0];
    if |a| == 1 {
      assert s[1] == b[0];
    } else if IsSpace(a[1]) {
      assert s[1] == a[1];
    } else {
      assert s[1] == a[1];
      assert s[1..] == a[1..] + b;
      WordLenPrefix(a[1..], b);
    }
  }

  /** A single word splits to itself. */
  lemma SplitWord(w: string)
    requires IsWord(w)
    ensures Split(w) == [w]
  {
    var n := WordLen(w);
    assert n == |w|;
    assert w[..n] == w && w[n..] == [];
    assert Split(w) == [w[..n]] + Split(w[n..]);
  }

  /** Round trip: splitting words joined by single spaces gives the words
      back, so `len(" ".join(ws).split()) == len(ws)`. */
  lemma {:induction false} SplitJoin(ws: seq<string>)
    requires forall i :: 0 <= i < |ws| ==> IsWord(ws[i])
    ensures Split(Join(ws)) == ws
  {
    if |ws| == 1 {
      SplitWord(ws[0]);
    } else if |ws| > 1 {
      SplitJoin(ws[1..]);
      SplitWord(ws[0]);
      SplitAtSpace(ws[0], ' ', Join(ws[1..]));
      assert Join(ws) == ws[0] + [' '] + Join(ws[1..]);
    }
  }
}
