/**
 * Utils.splitString (src/rover/Utils.java) and the pieces of the Java library
 * it and the rovers rely on: String.split with a one-character-class pattern,
 * toUpperCase on ASCII letters, and the end marker of a CharacterIterator.
 */
module Utils {

  /**
   * java.text.CharacterIterator.DONE, '\uFFFF' in Java: what the iterator returns
   * past the last character. A loop that tests for it also stops at a '\uFFFF'
   * inside the text.
   */
  const Done: char := '\U{FFFF}'

  /** The characters Utils.splitString cuts at: a space or a tab. */
  const Blanks: set<char> := {' ', '\t'}

  /** No character of s belongs to delims. */
  predicate NoneOf(s: string, delims: set<char>)
  {
    forall i :: 0 <= i < |s| ==> s[i] !in delims
  }

  /**
   * The pieces s falls into when it is cut at every character of delims,
   * empty pieces included: "a  b" cut at spaces gives "a", "", "b".
   */
  function Pieces(s: string, delims: set<char>): (r: seq<string>)
    ensures |r| >= 1
    decreases |s|
  {
    if s == [] then [[]]
    else
      var rest := Pieces(s[1..], delims);
      if s[0] in delims then [[]] + rest else [[s[0]] + rest[0]] + rest[1..]
  }

  /** The parts written one after the other, with sep between neighbours. */
  function Join(parts: seq<string>, sep: char): string
  {
    if parts == [] then []
    else if |parts| == 1 then parts[0]
    else parts[0] + [sep] + Join(parts[1..], sep)
  }

  /** The parts written one after the other. */
  function Concat(parts: seq<string>): string
  {
    if parts == [] then [] else parts[0] + Concat(parts[1..])
  }

  /** s with every character of delims replaced by sep. */
  function Replace(s: string, delims: set<char>, sep: char): string
  {
    if s == [] then [] else [if s[0] in delims then sep else s[0]] + Replace(s[1..], delims, sep)
  }

  /** s with every character of delims taken out. */
  function Remove(s: string, delims: set<char>): string
  {
    if s == [] then [] else (if s[0] in delims then [] else [s[0]]) + Remove(s[1..], delims)
  }

  /** The non-empty parts, in their original order. */
  function NonEmpty(parts: seq<string>): (r: seq<string>)
    ensures |r| <= |parts|
    ensures forall i :: 0 <= i < |r| ==> r[i] != [] && r[i] in parts
  {
    if parts == [] then []
    else (if parts[0] != [] then [parts[0]] else []) + NonEmpty(parts[1..])
  }

  /** What Utils.splitString returns: the non-empty runs of characters between blanks. */
  function Split(description: string): (r: seq<string>)
    ensures forall i :: 0 <= i < |r| ==> r[i] != [] && NoneOf(r[i], Blanks)
  {
    PiecesAvoidDelims(description, Blanks);
    NonEmpty(Pieces(description, Blanks))
  }

  /**
   * Utils.splitString: String.split("[ \t]") followed by the two passes over
   * the parts that KeepNonEmpty makes.
   */
  method SplitString(description: string) returns (nonEmptyParts: array<string>)
    ensures fresh(nonEmptyParts)
    ensures nonEmptyParts[..] == Split(description)
  {
    var parts := Pieces(description, Blanks);
    nonEmptyParts := KeepNonEmpty(parts);
  }

  /**
   * The two passes of Utils.splitString over the parts: one counting the
   * non-empty ones and one copying them, in order, into an array of exactly
   * that length.
   */
  method KeepNonEmpty(parts: seq<string>) returns (nonEmptyParts: array<string>)
    ensures fresh(nonEmptyParts)
    ensures nonEmptyParts[..] == NonEmpty(parts)
  {
    var n := 0;
    for i := 0 to |parts|
      invariant n == |NonEmpty(parts[..i])|
    {
      NonEmptyStep(parts, i);
      if |parts[i]| > 0 {
        n := n + 1;
      }
    }
    assert parts[..|parts|] == parts;
    nonEmptyParts := new string[n];
    n := 0;
    for i := 0 to |parts|
      invariant n == |NonEmpty(parts[..i])| <= nonEmptyParts.Length
      invariant nonEmptyParts[..n] == NonEmpty(parts[..i])
    {
      NonEmptyStep(parts, i);
      if |parts[i]| > 0 {
        nonEmptyParts[n] := parts[i];
        assert nonEmptyParts[..n + 1] == nonEmptyParts[..n] + [parts[i]];
        n := n + 1;
      }
    }
    assert parts[..|parts|] == parts;
  }

  /** Taking one more part keeps it exactly when it is not empty, and never keeps more than the whole does. */
  lemma NonEmptyStep(parts: seq<string>, i: nat)
    requires i < |parts|
    ensures NonEmpty(parts[..i + 1]) == NonEmpty(parts[..i]) + (if parts[i] != [] then [parts[i]] else [])
    ensures |NonEmpty(parts[..i + 1])| <= |NonEmpty(parts)|
  {
    NonEmptyAppend(parts[..i], [parts[i]]);
    assert parts[..i + 1] == parts[..i] + [parts[i]];
    NonEmptyAppend(parts[..i + 1], parts[i + 1..]);
    assert parts[..i + 1] + parts[i + 1..] == parts;
  }

  /** java.lang.String.split drops the empty strings at the end of its result. */
  function DropTrailingEmpty(parts: seq<string>): (r: seq<string>)
    ensures |r| <= |parts| && r == parts[..|r|]
    ensures r == [] || r[|r| - 1] != []
    ensures forall i :: |r| <= i < |parts| ==> parts[i] == []
  {
    if parts == [] || parts[|parts| - 1] != [] then parts
    else DropTrailingEmpty(parts[..|parts| - 1])
  }

  /**
   * java.lang.String.split(sep) with a one-character pattern and no limit: when
   * sep does not occur the result is the input alone, otherwise the pieces with
   * the trailing empty ones dropped.
   */
  function JavaSplit(s: string, sep: char): (r: seq<string>)
    ensures forall i :: 0 <= i < |r| ==> NoneOf(r[i], {sep})
    ensures NoneOf(s, {sep}) ==> r == [s]
    ensures |r| <= |Pieces(s, {sep})| && r == Pieces(s, {sep})[..|r|]
    ensures forall i :: |r| <= i < |Pieces(s, {sep})| ==> Pieces(s, {sep})[i] == []
  {
    var parts := Pieces(s, {sep});
    PiecesAvoidDelims(s, {sep});
    assert NoneOf(s, {sep}) ==> parts == [s] by {
      if NoneOf(s, {sep}) {
        PiecesOfWord(s, {sep});
      }
    }
    if |parts| == 1 then parts else DropTrailingEmpty(parts)
  }

  /** Character.toUpperCase restricted to ASCII: 'a'..'z' become 'A'..'Z'. */
  function ToUpper(c: char): char
  {
    if 'a' <= c <= 'z' then (c as int - 32) as char else c
  }

  /** String.toUpperCase restricted to ASCII. */
  function UpperCase(s: string): (r: string)
    ensures |r| == |s| && forall i :: 0 <= i < |s| ==> r[i] == ToUpper(s[i])
  {
    if s == [] then [] else [ToUpper(s[0])] + UpperCase(s[1..])
  }

  /** Every part in upper case. */
  function UpperAll(parts: seq<string>): (r: seq<string>)
    ensures |r| == |parts| && forall i :: 0 <= i < |parts| ==> r[i] == UpperCase(parts[i])
  {
    if parts == [] then [] else [UpperCase(parts[0])] + UpperAll(parts[1..])
  }

  // ---------------------------------------------------------------------------
  // Properties of the pieces

  /** No piece contains a separator. */
  lemma {:induction false} PiecesAvoidDelims(s: string, delims: set<char>)
    ensures forall p :: p in Pieces(s, delims) ==> NoneOf(p, delims)
    decreases |s|
  {
    if s != [] {
      var rest := Pieces(s[1..], delims);
      PiecesAvoidDelims(s[1..], delims);
      if s[0] !in delims {
        assert rest[0] in rest;
        assert NoneOf([s[0]] + rest[0], delims);
        forall p | p in rest[1..] ensures p in rest {
        }
      }
    }
  }

  /** Joining the pieces with one separator gives the input back, every separator turned into that one. */
  lemma {:induction false} JoinPieces(s: string, delims: set<char>, sep: char)
    ensures Join(Pieces(s, delims), sep) == Replace(s, delims, sep)
    decreases |s|
  {
    if s != [] {
      var rest := Pieces(s[1..], delims);
      JoinPieces(s[1..], delims, sep);
      if s[0] in delims {
        assert Pieces(s, delims) == [[]] + rest;
        assert ([[]] + rest)[1..] == rest;
      } else {
        var ps := Pieces(s, delims);
        assert ps == [[s[0]] + rest[0]] + rest[1..];
        if |rest| == 1 {
          assert Join(ps, sep) == [s[0]] + rest[0];
        } else {
          assert ps[1..] == rest[1..];
          assert Join(rest, sep) == rest[0] + [sep] + Join(rest[1..], sep);
          assert Join(ps, sep) == [s[0]] + rest[0] + [sep] + Join(rest[1..], sep);
        }
      }
    }
  }

  /** A word without separators is a single piece. */
  lemma {:induction false} PiecesOfWord(w: string, delims: set<char>)
    requires NoneOf(w, delims)
    ensures Pieces(w, delims) == [w]
    decreases |w|
  {
    if w != [] {
      PiecesOfWord(w[1..], delims);
      assert [w[0]] + w[1..] == w;
    }
  }

  /** Cutting at the separator that follows a word splits the word off. */
  lemma {:induction false} PiecesAfterWord(w: string, delims: set<char>, sep: char, tail: string)
    requires NoneOf(w, delims) && sep in delims
    ensures Pieces(w + [sep] + tail, delims) == [w] + Pieces(tail, delims)
    decreases |w|
  {
    var s := w + [sep] + tail;
    if w == [] {
      assert s[1..] == tail;
    } else {
      assert s[1..] == w[1..] + [sep] + tail;
      PiecesAfterWord(w[1..], delims, sep, tail);
      assert [w[0]] + w[1..] == w;
    }
  }

  /** Words without separators, joined by a separator, are cut back into exactly those words. */
  lemma {:induction false} PiecesOfJoin(words: seq<string>, delims: set<char>, sep: char)
    requires |words| >= 1 && sep in delims
    requires forall i :: 0 <= i < |words| ==> NoneOf(words[i], delims)
    ensures Pieces(Join(words, sep), delims) == words
    decreases |words|
  {
    if |words| == 1 {
      PiecesOfWord(words[0], delims);
    } else {
      PiecesOfJoin(words[1..], delims, sep);
      PiecesAfterWord(words[0], delims, sep, Join(words[1..], sep));
      assert [words[0]] + words[1..] == words;
    }
  }

  /** Three words without blanks, joined by single spaces, split back into those three words. */
  lemma SplitThreeWords(first: string, second: string, third: string)
    requires first != [] && second != [] && third != []
    requires NoneOf(first, Blanks) && NoneOf(second, Blanks) && NoneOf(third, Blanks)
    ensures Split(first + " " + second + " " + third) == [first, second, third]
    ensures JavaSplit(first + " " + second + " " + third, ' ') == [first, second, third]
  {
    var words := [first, second, third];
    assert words[1..][1..] == [third];
    assert Join(words[1..], ' ') == second + " " + third;
    assert first + " " + second + " " + third == Join(words, ' ');
    PiecesOfJoin(words, Blanks, ' ');
    NonEmptyKeepsWords(words);
    PiecesOfJoin(words, {' '}, ' ');
  }

  /** Taking out the empty parts distributes over concatenation, keeping the order. */
  lemma {:induction false} NonEmptyAppend(a: seq<string>, b: seq<string>)
    ensures NonEmpty(a + b) == NonEmpty(a) + NonEmpty(b)
    decreases |a|
  {
    if a != [] {
      assert (a + b)[1..] == a[1..] + b;
      NonEmptyAppend(a[1..], b);
    } else {
      assert a + b == b;
    }
  }

  /** Parts that are all non-empty are kept as they are. */
  lemma {:induction false} NonEmptyKeepsWords(parts: seq<string>)
    requires forall i :: 0 <= i < |parts| ==> parts[i] != []
    ensures NonEmpty(parts) == parts
    decreases |parts|
  {
    if parts != [] {
      NonEmptyKeepsWords(parts[1..]);
      assert [parts[0]] + parts[1..] == parts;
    }
  }

  /** Dropping empty parts does not change their concatenation. */
  lemma {:induction false} ConcatNonEmpty(parts: seq<string>)
    ensures Concat(NonEmpty(parts)) == Concat(parts)
    decreases |parts|
  {
    if parts != [] {
      ConcatNonEmpty(parts[1..]);
      var first := if parts[0] != [] then [parts[0]] else [];
      ConcatAppend(first, NonEmpty(parts[1..]));
    }
  }

  lemma {:induction false} ConcatAppend(a: seq<string>, b: seq<string>)
    ensures Concat(a + b) == Concat(a) + Concat(b)
    decreases |a|
  {
    if a != [] {
      assert (a + b)[1..] == a[1..] + b;
      ConcatAppend(a[1..], b);
    } else {
      assert a + b == b;
    }
  }

  /** Concatenating the pieces gives the input with the separators taken out. */
  lemma {:induction false} ConcatPieces(s: string, delims: set<char>)
    ensures Concat(Pieces(s, delims)) == Remove(s, delims)
    decreases |s|
  {
    if s != [] {
      var rest := Pieces(s[1..], delims);
      ConcatPieces(s[1..], delims);
      if s[0] !in delims {
        var ps := Pieces(s, delims);
        assert ps[1..] == rest[1..];
        assert Concat(rest) == rest[0] + Concat(rest[1..]);
      }
    }
  }

  /** Nothing is left after taking out the separators exactly when s is made only of separators. */
  lemma {:induction false} RemoveEmptyIff(s: string, delims: set<char>)
    ensures Remove(s, delims) == [] <==> forall i :: 0 <= i < |s| ==> s[i] in delims
    decreases |s|
  {
    if s != [] {
      RemoveEmptyIff(s[1..], delims);
      assert forall i :: 1 <= i < |s| ==> s[i] == s[1..][i - 1];
    }
  }

  // ---------------------------------------------------------------------------
  // Properties of Utils.splitString

  /** Concatenating the result of the splitter gives the input without its spaces and tabs. */
  lemma SplitConcat(description: string)
    ensures Concat(Split(description)) == Remove(description, Blanks)
  {
    ConcatNonEmpty(Pieces(description, Blanks));
    ConcatPieces(description, Blanks);
  }

  /** The splitter returns no parts exactly when the input is made only of spaces and tabs. */
  lemma SplitEmptyIff(description: string)
    ensures Split(description) == [] <==> forall i :: 0 <= i < |description| ==> description[i] in Blanks
  {
    SplitConcat(description);
    RemoveEmptyIff(description, Blanks);
    var r := Split(description);
    if r != [] {
      ConcatAppend([r[0]], r[1..]);
      assert [r[0]] + r[1..] == r;
    }
  }

  /** Upper-casing the input upper-cases every piece and changes nothing else: blanks are not letters. */
  lemma {:induction false} PiecesUpperCase(s: string)
    ensures Pieces(UpperCase(s), Blanks) == UpperAll(Pieces(s, Blanks))
    decreases |s|
  {
    if s != [] {
      var u := UpperCase(s);
      assert u[1..] == UpperCase(s[1..]);
      PiecesUpperCase(s[1..]);
      assert ToUpper(s[0]) in Blanks <==> s[0] in Blanks;
      var rest := Pieces(s[1..], Blanks);
      if s[0] !in Blanks {
        assert UpperCase([s[0]] + rest[0]) == [ToUpper(s[0])] + UpperCase(rest[0]);
        assert UpperAll(rest)[1..] == UpperAll(rest[1..]);
      } else {
        assert UpperAll([[]] + rest) == [[]] + UpperAll(rest);
      }
    }
  }

  lemma {:induction false} NonEmptyUpperAll(parts: seq<string>)
    ensures NonEmpty(UpperAll(parts)) == UpperAll(NonEmpty(parts))
    decreases |parts|
  {
    if parts != [] {
      assert UpperAll(parts)[1..] == UpperAll(parts[1..]);
      NonEmptyUpperAll(parts[1..]);
      var first := if parts[0] != [] then [parts[0]] else [];
      UpperAllAppend(first, NonEmpty(parts[1..]));
    }
  }

  /** Proof step for NonEmptyUpperAll: upper-casing distributes over joining two lists of parts. */
  lemma UpperAllAppend(a: seq<string>, b: seq<string>)
    ensures UpperAll(a + b) == UpperAll(a) + UpperAll(b)
  {
  }

  /** Splitting the upper-cased input gives the upper-cased parts. */
  lemma SplitUpperCase(description: string)
    ensures Split(UpperCase(description)) == UpperAll(Split(description))
  {
    PiecesUpperCase(description);
    NonEmptyUpperAll(Pieces(description, Blanks));
  }
}
