/** String helpers shared by the pages: the `trim()` test used by the chat
    drafts, the `split(' ')`-based initials of Team, Inbox and ChatModal, ASCII
    upper-casing and the decimal rendering of counts. */
module Text {
  import Seqs

  /** ECMAScript WhiteSpace and LineTerminator code points: what `trim()` strips. */
  predicate IsSpace(c: char) {
    || c == ' ' || c == '\t' || c == '\n' || c == '\r'
    || c == '\U{000B}' || c == '\U{000C}' || c == '\U{00A0}' || c == '\U{1680}'
    || ('\U{2000}' <= c <= '\U{200A}')
    || c == '\U{2028}' || c == '\U{2029}' || c == '\U{202F}' || c == '\U{205F}'
    || c == '\U{3000}' || c == '\U{FEFF}'
  }

  /** Every character of `s` is white space (vacuously true of ""). */
  predicate IsBlank(s: string) {
    forall i :: 0 <= i < |s| ==> IsSpace(s[i])
  }

  function TrimStart(s: string): (r: string)
    ensures |r| <= |s| && r == s[|s| - |r|..]
    ensures r == [] || !IsSpace(r[0])
    ensures forall i :: 0 <= i < |s| - |r| ==> IsSpace(s[i])
  {
    if s == [] || !IsSpace(s[0]) then s else TrimStart(s[1..])
  }

  function TrimEnd(s: string): (r: string)
    ensures |r| <= |s| && r == s[..|r|]
    ensures r == [] || !IsSpace(r[|r| - 1])
    ensures forall i :: |r| <= i < |s| ==> IsSpace(s[i])
  {
    if s == [] || !IsSpace(s[|s| - 1]) then s else TrimEnd(s[..|s| - 1])
  }

  /** `String.prototype.trim`: leading and trailing white space removed. */
  function Trim(s: string): (r: string)
    ensures r == [] || (!IsSpace(r[0]) && !IsSpace(r[|r| - 1]))
  {
    TrimEnd(TrimStart(s))
  }

  /** `!s.trim()` holds exactly when the draft is all white space. */
  lemma TrimEmptyIffBlank(s: string)
    ensures Trim(s) == [] <==> IsBlank(s)
  {
  }

  /** ASCII `toUpperCase`: a..z become A..Z, every other character is kept. */
  function UpperChar(c: char): (u: char)
    ensures 'a' <= c <= 'z' ==> 'A' <= u <= 'Z' && u as int - 'A' as int == c as int - 'a' as int
    ensures !('a' <= c <= 'z') ==> u == c
  {
    if 'a' <= c <= 'z' then (c as int - 32) as char else c
  }

  function ToUpper(s: string): (r: string)
    ensures |r| == |s|
    ensures forall i :: 0 <= i < |s| ==> r[i] == UpperChar(s[i])
  {
    if s == [] then [] else [UpperChar(s[0])] + ToUpper(s[1..])
  }

  /** `s.split(' ')`: the pieces between single spaces, empty pieces included;
      never an empty list ("" splits to [""]). */
  function Split(s: string): (segs: seq<string>)
    ensures |segs| >= 1
    ensures forall k :: 0 <= k < |segs| ==> ' ' !in segs[k]
    ensures s != [] && s[0] != ' ' ==> segs[0] != [] && segs[0][0] == s[0]
  {
    if s == [] then [[]]
    else if s[0] == ' ' then [[]] + Split(s[1..])
    else
      var rest := Split(s[1..]);
      [[s[0]] + rest[0]] + rest[1..]
  }

  /** `segs.join(' ')`. */
  function Join(segs: seq<string>): string
  {
    if segs == [] then []
    else if |segs| == 1 then segs[0]
    else segs[0] + [' '] + Join(segs[1..])
  }

  /** Splitting on ' ' and joining back with ' ' gives the original string. */
  lemma {:induction false} JoinSplit(s: string)
    ensures Join(Split(s)) == s
  {
    if s == [] {
    } else if s[0] == ' ' {
      JoinSplit(s[1..]);
      assert Split(s) == [[]] + Split(s[1..]);
      assert s == [' '] + s[1..];
    } else {
      var rest := Split(s[1..]);
      JoinSplit(s[1..]);
      if |rest| == 1 {
        assert Split(s) == [[s[0]] + rest[0]];
        assert s == [s[0]] + s[1..];
      } else {
        var segs := Split(s);
        assert segs[1..] == rest[1..];
        assert Join(rest) == rest[0] + [' '] + Join(rest[1..]);
        assert Join(segs) == [s[0]] + rest[0] + [' '] + Join(rest[1..]);
        assert s == [s[0]] + s[1..];
      }
    }
  }

  /** `word[0]` of each piece, joined: an empty piece yields `undefined`,
      which `join('')` renders as nothing. */
  function Heads(segs: seq<string>): (r: string)
    ensures |r| <= |segs|
    ensures |r| == |segs| <==> forall k :: 0 <= k < |segs| ==> segs[k] != []
  {
    if segs == [] then []
    else (if segs[0] == [] then [] else [segs[0][0]]) + Heads(segs[1..])
  }

  predicate NonEmpty(piece: string)
  {
    piece != []
  }

  /** Reference reading of `Heads`: the first characters of the non-empty
      pieces, in order. */
  lemma {:induction false} HeadsAreFirsts(segs: seq<string>)
    ensures |Heads(segs)| == |Seqs.Filter(segs, NonEmpty)|
    ensures forall i :: 0 <= i < |Heads(segs)| ==> Heads(segs)[i] == Seqs.Filter(segs, NonEmpty)[i][0]
  {
    if segs != [] {
      HeadsAreFirsts(segs[1..]);
      assert segs == [segs[0]] + segs[1..];
      Seqs.FilterCons(segs[0], segs[1..], NonEmpty);
    }
  }

  /** `getInitials` of Team, Inbox and ChatModal:
      `name.split(' ').map(word => word[0]).join('').toUpperCase()`. */
  function Initials(name: string): (r: string)
    ensures |r| <= |Split(name)|
    ensures |r| == |Split(name)| <==> forall k :: 0 <= k < |Split(name)| ==> Split(name)[k] != []
    ensures |r| == |Heads(Split(name))|
    ensures forall i :: 0 <= i < |r| ==> r[i] == UpperChar(Heads(Split(name))[i])
  {
    ToUpper(Heads(Split(name)))
  }

  /** Reference definition: the characters that start a word, i.e. that are not
      a space and follow either the start of the string or a space.
      `afterSpace` says whether the previous character was a space (or absent). */
  function WordStarts(s: string, afterSpace: bool): string
  {
    if s == [] then []
    else (if s[0] != ' ' && afterSpace then [s[0]] else []) + WordStarts(s[1..], s[0] == ' ')
  }

  lemma {:induction false} HeadsSplitIsWordStarts(s: string)
    ensures Heads(Split(s)) == WordStarts(s, true)
    ensures Heads(Split(s)[1..]) == WordStarts(s, false)
  {
    if s == [] {
    } else if s[0] == ' ' {
      HeadsSplitIsWordStarts(s[1..]);
      assert Split(s) == [[]] + Split(s[1..]);
      assert Split(s)[1..] == Split(s[1..]);
    } else {
      HeadsSplitIsWordStarts(s[1..]);
      var rest := Split(s[1..]);
      var segs := Split(s);
      assert segs == [[s[0]] + rest[0]] + rest[1..];
      assert segs[1..] == rest[1..];
      assert Heads(segs) == [s[0]] + Heads(segs[1..]);
    }
  }

  /** The initials are, in order, the upper-cased first characters of the words. */
  lemma InitialsAreUpperWordStarts(name: string)
    ensures Initials(name) == ToUpper(WordStarts(name, true))
    ensures |Initials(name)| <= |Split(name)|
  {
    HeadsSplitIsWordStarts(name);
  }

  /** Inside a word only the first character can start it. */
  lemma {:induction false} WordStartsOverWord(w: string, rest: string, afterSpace: bool)
    requires ' ' !in w
    ensures WordStarts(w + rest, afterSpace)
         == (if w != [] && afterSpace then [w[0]] else [])
            + WordStarts(rest, if w == [] then afterSpace else false)
  {
    if w == [] {
      assert w + rest == rest;
    } else {
      assert w[0] in w;
      assert (w + rest)[0] == w[0];
      assert (w + rest)[1..] == w[1..] + rest;
      WordStartsOverWord(w[1..], rest, false);
    }
  }

  /** "First Last" gives the two upper-cased first letters. */
  lemma InitialsOfTwoWords(first: string, last: string)
    requires first != [] && last != []
    requires ' ' !in first && ' ' !in last
    ensures Initials(first + " " + last) == [UpperChar(first[0]), UpperChar(last[0])]
  {
    var name := first + " " + last;
    InitialsAreUpperWordStarts(name);
    assert name == first + (" " + last);
    WordStartsOverWord(first, " " + last, true);
    assert (" " + last)[1..] == last;
    assert WordStarts(" " + last, false) == WordStarts(last, true);
    WordStartsOverWord(last, [], true);
    assert last + [] == last;
    assert WordStarts(name, true) == [first[0], last[0]];
  }

  /** A piece list has one entry per word exactly when no piece is empty. */
  lemma InitialsCountMatchesPieces(name: string)
    ensures |Initials(name)| == |Split(name)| <==> forall k :: 0 <= k < |Split(name)| ==> Split(name)[k] != []
  {
  }

  /** No leading, trailing or doubled spaces. */
  predicate WellSpaced(s: string) {
    && s != []
    && s[0] != ' '
    && s[|s| - 1] != ' '
    && forall i :: 0 <= i < |s| - 1 ==> !(s[i] == ' ' && s[i + 1] == ' ')
  }

  lemma {:induction false} SplitTailNonEmpty(s: string)
    requires s == [] || s[|s| - 1] != ' '
    requires forall i :: 0 <= i < |s| - 1 ==> !(s[i] == ' ' && s[i + 1] == ' ')
    ensures forall k :: 1 <= k < |Split(s)| ==> Split(s)[k] != []
  {
    if s == [] {
    } else if s[0] == ' ' {
      var t := s[1..];
      assert t != [] && t[0] != ' ' by {
        assert s[1] != ' ' || |s| == 1;
      }
      assert forall i :: 0 <= i < |t| - 1 ==> !(t[i] == ' ' && t[i + 1] == ' ') by {
        forall i | 0 <= i < |t| - 1 ensures !(t[i] == ' ' && t[i + 1] == ' ') {
          assert t[i] == s[i + 1] && t[i + 1] == s[i + 2];
        }
      }
      SplitTailNonEmpty(t);
      assert Split(s)[1..] == Split(t);
    } else {
      var t := s[1..];
      assert forall i :: 0 <= i < |t| - 1 ==> !(t[i] == ' ' && t[i + 1] == ' ') by {
        forall i | 0 <= i < |t| - 1 ensures !(t[i] == ' ' && t[i + 1] == ' ') {
          assert t[i] == s[i + 1] && t[i + 1] == s[i + 2];
        }
      }
      SplitTailNonEmpty(t);
      assert Split(s)[1..] == Split(t)[1..];
    }
  }

  /** A name without leading, trailing or doubled spaces yields one initial per piece. */
  lemma WellSpacedInitialPerPiece(name: string)
    requires WellSpaced(name)
    ensures |Initials(name)| == |Split(name)|
  {
    SplitTailNonEmpty(name);
  }

  /** `s.charAt(0).toUpperCase()`: "" for the empty string. */
  function FirstUpper(s: string): (r: string)
    ensures s == [] <==> r == []
    ensures s != [] ==> r == [UpperChar(s[0])]
  {
    if s == [] then [] else [UpperChar(s[0])]
  }

  function DigitChar(d: nat): (c: char)
    requires d < 10
    ensures '0' <= c <= '9'
  {
    ('0' as int + d) as char
  }

  /** Decimal rendering of a count, as template literals print a non-negative integer. */
  function Decimal(n: nat): (r: string)
    ensures r != []
    ensures forall i :: 0 <= i < |r| ==> '0' <= r[i] <= '9'
  {
    if n < 10 then [DigitChar(n)] else Decimal(n / 10) + [DigitChar(n % 10)]
  }

  function ParseDecimal(s: string): nat
    requires forall i :: 0 <= i < |s| ==> '0' <= s[i] <= '9'
  {
    if s == [] then 0
    else ParseDecimal(s[..|s| - 1]) * 10 + (s[|s| - 1] as int - '0' as int)
  }

  /** Reading back a rendered count gives the count. */
  lemma {:induction false} DecimalRoundTrip(n: nat)
    ensures ParseDecimal(Decimal(n)) == n
  {
    if n >= 10 {
      DecimalRoundTrip(n / 10);
      var s := Decimal(n);
      assert s[..|s| - 1] == Decimal(n / 10);
    }
  }
}
