/** The handful of JavaScript string operations the core relies on, written out. */
module Text {

  predicate IsDigit(c: char) {
    '0' <= c <= '9'
  }

  predicate AllDigits(s: string) {
    forall i :: 0 <= i < |s| ==> IsDigit(s[i])
  }

  function DigitChar(d: nat): (c: char)
    requires d < 10
    ensures IsDigit(c) && c as int - '0' as int == d
  {
    (d + '0' as int) as char
  }

  /** Decimal rendering of a natural number, as `Number.prototype.toString()`. */
  function NatToString(n: nat): (s: string)
    ensures |s| >= 1 && AllDigits(s)
    ensures |s| > 1 ==> s[0] != '0'
    decreases n
  {
    if n < 10 then [DigitChar(n)] else NatToString(n / 10) + [DigitChar(n % 10)]
  }

  /** Decimal rendering of an integer, with a leading '-' when negative. */
  function IntToString(n: int): (s: string)
    ensures |s| >= 1
  {
    if n < 0 then "-" + NatToString(-n) else NatToString(n)
  }

  /** Reads a string of decimal digits back as a number. */
  function DigitsValue(s: string): nat
    requires AllDigits(s)
  {
    if s == [] then 0 else DigitsValue(s[..|s| - 1]) * 10 + (s[|s| - 1] as int - '0' as int)
  }

  lemma {:induction false} NatToStringRoundTrip(n: nat)
    ensures DigitsValue(NatToString(n)) == n
    decreases n
  {
    var s := NatToString(n);
    if n >= 10 {
      NatToStringRoundTrip(n / 10);
      assert s[..|s| - 1] == NatToString(n / 10);
    }
  }

  lemma NatToStringInjective(a: nat, b: nat)
    ensures NatToString(a) == NatToString(b) <==> a == b
  {
    NatToStringRoundTrip(a);
    NatToStringRoundTrip(b);
  }

  /** Two years render alike exactly when they are equal. */
  lemma IntToStringInjective(a: int, b: int)
    ensures IntToString(a) == IntToString(b) <==> a == b
  {
    if IntToString(a) == IntToString(b) {
      if a < 0 && b < 0 {
        assert IntToString(a)[1..] == NatToString(-a);
        assert IntToString(b)[1..] == NatToString(-b);
        NatToStringInjective(-a, -b);
      } else if a >= 0 && b >= 0 {
        NatToStringInjective(a, b);
      }
    }
  }

  /** The length JavaScript reports: characters outside the Basic Multilingual Plane take two UTF-16 units. */
  function Utf16Length(s: string): (n: nat)
    ensures |s| <= n <= 2 * |s|
  {
    if s == [] then 0 else Utf16Length(s[..|s| - 1]) + (if s[|s| - 1] as int >= 0x10000 then 2 else 1)
  }

  /** Within the Basic Multilingual Plane, the UTF-16 length is the number of characters. */
  lemma {:induction false} Utf16LengthOfBmp(s: string)
    requires forall i :: 0 <= i < |s| ==> s[i] as int < 0x10000
    ensures Utf16Length(s) == |s|
  {
    if s != [] {
      Utf16LengthOfBmp(s[..|s| - 1]);
    }
  }

  function Repeat(c: char, n: nat): (s: string)
    ensures |s| == n && forall i :: 0 <= i < n ==> s[i] == c
  {
    if n == 0 then [] else [c] + Repeat(c, n - 1)
  }

  /** `s.padStart(width, c)` for a one-character pad string. */
  function PadStart(s: string, width: nat, c: char): (r: string)
    ensures Utf16Length(s) >= width ==> r == s
    ensures Utf16Length(s) < width ==> r == Repeat(c, width - Utf16Length(s)) + s
  {
    if Utf16Length(s) >= width then s else Repeat(c, width - Utf16Length(s)) + s
  }

  /** Whether a character is matched by `\s` in a JavaScript regular expression. */
  predicate IsSpace(c: char) {
    c == ' ' || c == '\t' || c == '\n' || c == '\r' || c == '\U{000B}' || c == '\U{000C}'
    || c == '\U{00A0}' || c == '\U{1680}' || ('\U{2000}' <= c <= '\U{200A}')
    || c == '\U{2028}' || c == '\U{2029}' || c == '\U{202F}' || c == '\U{205F}'
    || c == '\U{3000}' || c == '\U{FEFF}'
  }

  predicate NoSpace(s: string) {
    forall i :: 0 <= i < |s| ==> !IsSpace(s[i])
  }

  function DropSpaces(s: string): (r: string)
    ensures |r| <= |s| && r == s[|s| - |r|..]
    ensures r != [] ==> !IsSpace(r[0])
    ensures forall i :: 0 <= i < |s| - |r| ==> IsSpace(s[i])
  {
    if s != [] && IsSpace(s[0]) then DropSpaces(s[1..]) else s
  }

  /** `s.split(/\s+/)`: the pieces between maximal runs of white space; a leading or trailing
      run yields an empty first or last piece, and the empty string yields `[""]`. */
  function SplitOnSpaces(s: string): (r: seq<string>)
    ensures |r| >= 1
    ensures forall i :: 0 <= i < |r| ==> NoSpace(r[i])
    decreases |s|
  {
    if s == [] then [""]
    else if !IsSpace(s[0]) then
      var rest := SplitOnSpaces(s[1..]);
      [[s[0]] + rest[0]] + rest[1..]
    else [""] + SplitOnSpaces(DropSpaces(s[1..]))
  }

  /** The characters of `s` that are not white space, in order. */
  function RemoveSpaces(s: string): (r: string)
    ensures NoSpace(r) && |r| <= |s|
  {
    if s == [] then [] else (if IsSpace(s[0]) then [] else [s[0]]) + RemoveSpaces(s[1..])
  }

  function Concat<T>(pieces: seq<seq<T>>): seq<T> {
    if pieces == [] then [] else pieces[0] + Concat(pieces[1..])
  }

  /** Growing the first piece by one element in front grows the concatenation the same way. */
  lemma ConcatGrowFirst<T>(c: T, pieces: seq<seq<T>>)
    requires pieces != []
    ensures Concat([[c] + pieces[0]] + pieces[1..]) == [c] + Concat(pieces)
  {
    var grown := [[c] + pieces[0]] + pieces[1..];
    var tail := Concat(pieces[1..]);
    assert grown[0] == [c] + pieces[0] && grown[1..] == pieces[1..];
    assert Concat(grown) == ([c] + pieces[0]) + tail;
    assert Concat(pieces) == pieces[0] + tail;
    SeqAssoc([c], pieces[0], tail);
  }

  lemma SeqAssoc<T>(a: seq<T>, b: seq<T>, c: seq<T>)
    ensures (a + b) + c == a + (b + c)
  {
  }

  lemma ConcatEmptyFirst<T>(pieces: seq<seq<T>>)
    ensures Concat([[]] + pieces) == Concat(pieces)
  {
    var more := [[]] + pieces;
    assert more[0] == [] && more[1..] == pieces;
  }

  lemma {:induction false} RemoveSpacesAfterDrop(s: string)
    ensures RemoveSpaces(DropSpaces(s)) == RemoveSpaces(s)
  {
    if s != [] && IsSpace(s[0]) {
      RemoveSpacesAfterDrop(s[1..]);
    }
  }

  /** The pieces hold every character of the input that is not white space, in order. */
  lemma {:induction false} SplitKeepsCharacters(s: string)
    ensures Concat(SplitOnSpaces(s)) == RemoveSpaces(s)
    decreases |s|
  {
    var r := SplitOnSpaces(s);
    if s == [] {
      assert Concat(r) == "" + Concat<char>([]);
    } else if !IsSpace(s[0]) {
      SplitKeepsCharacters(s[1..]);
      ConcatGrowFirst(s[0], SplitOnSpaces(s[1..]));
    } else {
      var d := DropSpaces(s[1..]);
      SplitKeepsCharacters(d);
      RemoveSpacesAfterDrop(s[1..]);
      ConcatEmptyFirst(SplitOnSpaces(d));
      assert RemoveSpaces(s) == [] + RemoveSpaces(s[1..]);
    }
  }

  /** A single piece exactly when the input holds no white space. */
  lemma {:induction false} SplitSinglePiece(s: string)
    ensures |SplitOnSpaces(s)| == 1 <==> NoSpace(s)
    decreases |s|
  {
    if s != [] {
      if !IsSpace(s[0]) {
        SplitSinglePiece(s[1..]);
        if NoSpace(s[1..]) {
          forall i | 0 <= i < |s| ensures !IsSpace(s[i]) {
            if i > 0 {
              assert s[i] == s[1..][i - 1];
            }
          }
        }
      } else {
        assert !NoSpace(s);
      }
    }
  }

  /** The first piece is empty exactly for an empty input or leading white space; the last
      one exactly for an empty input or trailing white space; no piece between them is empty. */
  lemma {:induction false} SplitEmptyPieces(s: string)
    ensures SplitOnSpaces(s)[0] == "" <==> s == [] || IsSpace(s[0])
    ensures SplitOnSpaces(s)[|SplitOnSpaces(s)| - 1] == "" <==> s == [] || IsSpace(s[|s| - 1])
    ensures forall i :: 0 < i < |SplitOnSpaces(s)| - 1 ==> SplitOnSpaces(s)[i] != ""
    decreases |s|
  {
    var r := SplitOnSpaces(s);
    if s != [] {
      if !IsSpace(s[0]) {
        var t := s[1..];
        var rest := SplitOnSpaces(t);
        SplitEmptyPieces(t);
        assert r[0] == [s[0]] + rest[0] && |r| == |rest|;
        forall i | 0 < i < |r| ensures r[i] == rest[i] {
        }
        if |rest| == 1 {
          SplitSinglePiece(t);
          if t != [] {
            assert s[|s| - 1] == t[|t| - 1];
          }
        } else {
          assert t != [];
          assert s[|s| - 1] == t[|t| - 1];
        }
      } else {
        var d := DropSpaces(s[1..]);
        var rest := SplitOnSpaces(d);
        SplitEmptyPieces(d);
        assert r == [""] + rest;
        forall i | 0 < i < |r| ensures r[i] == rest[i - 1] {
        }
        if d == [] {
          if |s| > 1 {
            assert IsSpace(s[1..][|s| - 2]);
          }
        } else {
          assert d[|d| - 1] == s[|s| - 1];
        }
      }
    }
  }

  /** `words.join(sep)`. */
  function Join(words: seq<string>, sep: string): string {
    if words == [] then ""
    else if |words| == 1 then words[0]
    else words[0] + sep + Join(words[1..], sep)
  }

  lemma {:induction false} SplitWord(w: string, tail: string)
    requires NoSpace(w) && w != []
    requires tail == [] || IsSpace(tail[0])
    ensures SplitOnSpaces(w + tail) == [w + SplitOnSpaces(tail)[0]] + SplitOnSpaces(tail)[1..]
    decreases |w|
  {
    var st := SplitOnSpaces(tail);
    var t := w[1..] + tail;
    ConsConcat(w, tail);
    SplitCons(w[0], t);
    if |w| > 1 {
      SplitWord(w[1..], tail);
    }
    ConsConcat(w, st[0]);
  }

  /** A word character starts the first piece. */
  lemma SplitCons(c: char, t: string)
    requires !IsSpace(c)
    ensures SplitOnSpaces([c] + t) == [[c] + SplitOnSpaces(t)[0]] + SplitOnSpaces(t)[1..]
  {
    assert ([c] + t)[0] == c && ([c] + t)[1..] == t;
  }

  lemma ConsConcat<T>(a: seq<T>, b: seq<T>)
    requires a != []
    ensures a + b == [a[0]] + (a[1..] + b)
  {
  }

  lemma SplitAfterSpace(tail: string)
    requires tail == [] || !IsSpace(tail[0])
    ensures SplitOnSpaces(" " + tail) == [""] + SplitOnSpaces(tail)
  {
    assert (" " + tail)[1..] == tail;
    assert DropSpaces(tail) == tail;
  }

  /** Splitting words joined by single spaces gives the words back, provided none is empty
      or contains white space. */
  lemma {:induction false} SplitJoinRoundTrip(words: seq<string>)
    requires |words| >= 1
    requires forall i :: 0 <= i < |words| ==> words[i] != [] && NoSpace(words[i])
    ensures SplitOnSpaces(Join(words, " ")) == words
  {
    var w := words[0];
    if |words| == 1 {
      SplitWord(w, []);
      assert w + [] == w;
    } else {
      var tail := Join(words[1..], " ");
      SplitJoinRoundTrip(words[1..]);
      JoinStartsWithFirstWord(words[1..]);
      SplitAfterSpace(tail);
      assert Join(words, " ") == w + (" " + tail);
      SplitWord(w, " " + tail);
      assert SplitOnSpaces(Join(words, " ")) == [w + ""] + words[1..];
      assert w + "" == w;
    }
  }

  lemma {:induction false} JoinStartsWithFirstWord(words: seq<string>)
    requires |words| >= 1 && words[0] != []
    ensures Join(words, " ") != [] && Join(words, " ")[0] == words[0][0]
  {
  }
}
