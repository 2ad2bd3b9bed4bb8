/** The window style fields of the React sidebar editor: the title-bar colour through the colour
    picker (an `[r, g, b]` list shown as `#rrggbb`), the comma-separated number lists typed into
    the colour, size and position boxes, and the corner lock selector. `Number(text)` on free
    text is a parameter `toNumber` (None for `NaN`). */
module WindowStyleFields {
  import opened Wrappers
  import opened Text

  /** `Math.max(0, Math.min(255, n))` */
  function Clamp(n: int): (r: nat)
    ensures r <= 255
    ensures 0 <= n <= 255 ==> r == n
    ensures n < 0 ==> r == 0
    ensures n > 255 ==> r == 255
  {
    if n < 0 then 0 else if n > 255 then 255 else n
  }

  /** The colour components, each clamped and written as two hexadecimal digits. */
  function HexDigits(color: seq<int>): (s: string)
    ensures |s| == 2 * |color|
  {
    if color == [] then "" else Hex2(Clamp(color[0])) + HexDigits(color[1..])
  }

  /** The picker's value for the stored `title_bar_color`: `#` and the hex digits of each
      component, or black when there is no colour (`undefined` or `null`). */
  function EncodeColor(color: Option<seq<int>>): (r: string)
    ensures |r| > 0 && r[0] == '#'
    ensures color.None? ==> r == "#000000"
    ensures color.Some? ==> |r| == 1 + 2 * |color.value|
  {
    if color.None? then "#000000" else "#" + HexDigits(color.value)
  }

  /** `s.slice(a, b)` for `0 <= a <= b`: the part of `s` between the two positions, cut short
      at the end of `s`. */
  function Slice(s: string, a: nat, b: nat): (r: string)
    requires a <= b
    ensures |r| <= b - a
    ensures b <= |s| ==> r == s[a..b]
  {
    if b <= |s| then s[a..b] else if a <= |s| then s[a..] else ""
  }

  /** What the picker's `onChange` stores for the chosen `#rrggbb`: the three digit pairs read
      with `parseInt(_, 16)`, None standing for `NaN`. */
  function DecodeColor(hex: string): (r: seq<Option<int>>)
    ensures |r| == 3
  {
    [ParseInt(Slice(hex, 1, 3), true), ParseInt(Slice(hex, 3, 5), true), ParseInt(Slice(hex, 5, 7), true)]
  }

  /** Component `i` of the colour is written at positions `2i` and `2i + 1` of the hex digits. */
  lemma {:induction false} HexDigitsAt(color: seq<int>, i: nat)
    requires i < |color|
    ensures HexDigits(color)[2 * i..2 * i + 2] == Hex2(Clamp(color[i]))
  {
    if i > 0 {
      HexDigitsAt(color[1..], i - 1);
      var rest := HexDigits(color[1..]);
      assert HexDigits(color)[2 * i..2 * i + 2] == rest[2 * (i - 1)..2 * (i - 1) + 2];
    }
  }

  /** Each component of a colour the picker shows reads back, clamped to `0..255`. */
  lemma EncodedComponent(color: seq<int>, i: nat)
    requires i < |color|
    ensures ParseInt(Slice(EncodeColor(Some(color)), 2 * i + 1, 2 * i + 3), true) == Some(Clamp(color[i]))
  {
    var r := EncodeColor(Some(color));
    HexDigitsAt(color, i);
    assert Slice(r, 2 * i + 1, 2 * i + 3) == HexDigits(color)[2 * i..2 * i + 2];
    ParseHex2(Clamp(color[i]));
  }

  /** Showing a stored `[r, g, b]` in the picker and taking it back stores the same colour with
      each component clamped to `0..255`; a colour already in range comes back unchanged. */
  lemma ColorRoundTrip(r: int, g: int, b: int)
    ensures DecodeColor(EncodeColor(Some([r, g, b]))) == [Some(Clamp(r)), Some(Clamp(g)), Some(Clamp(b))]
    ensures 0 <= r <= 255 && 0 <= g <= 255 && 0 <= b <= 255 ==>
              DecodeColor(EncodeColor(Some([r, g, b]))) == [Some(r), Some(g), Some(b)]
  {
    EncodedComponent([r, g, b], 0);
    EncodedComponent([r, g, b], 1);
    EncodedComponent([r, g, b], 2);
  }

  /** A hexadecimal digit as `toString(16)` writes it: `0`–`9` or lower-case `a`–`f`. */
  predicate IsLowerHex(c: char) {
    '0' <= c <= '9' || 'a' <= c <= 'f'
  }

  /** The picker value is `#` followed only by lower-case hexadecimal digits. */
  lemma {:induction false} EncodedDigitsLowerHex(color: seq<int>)
    ensures forall i | 0 <= i < |HexDigits(color)| :: IsLowerHex(HexDigits(color)[i])
  {
    if color != [] {
      EncodedDigitsLowerHex(color[1..]);
      var h := Hex2(Clamp(color[0]));
      assert forall i | 0 <= i < 2 :: IsLowerHex(h[i]);
      assert HexDigits(color) == h + HexDigits(color[1..]);
    }
  }

  // ----- number lists -----

  /** The position of the first `c` in `s`. */
  function IndexOf(s: string, c: char): (i: nat)
    requires c in s
    ensures i < |s| && s[i] == c && c !in s[..i]
  {
    if s[0] == c then 0 else 1 + IndexOf(s[1..], c)
  }

  /** `s.split(sep)` for a one-character separator: the pieces between separators, in order. */
  function Split(s: string, sep: char): (r: seq<string>)
    ensures |r| >= 1
    ensures forall i | 0 <= i < |r| :: sep !in r[i]
    ensures sep !in s ==> r == [s]
    decreases |s|
  {
    if sep !in s then [s]
    else
      var i := IndexOf(s, sep);
      [s[..i]] + Split(s[i + 1..], sep)
  }

  /** The first separator after a piece without one is the one right after it. */
  lemma {:induction false} IndexOfAfterPiece(p: string, sep: char, t: string)
    requires sep !in p
    ensures IndexOf(p + [sep] + t, sep) == |p|
  {
    if p != [] {
      assert (p + [sep] + t)[1..] == p[1..] + [sep] + t;
      IndexOfAfterPiece(p[1..], sep, t);
    }
  }

  /** `parts.join(sep)` */
  function Join(parts: seq<string>, sep: char): string {
    if parts == [] then ""
    else if |parts| == 1 then parts[0]
    else parts[0] + [sep] + Join(parts[1..], sep)
  }

  /** Splitting what was joined gives the pieces back when none of them holds the separator. */
  lemma {:induction false} SplitJoin(parts: seq<string>, sep: char)
    requires |parts| >= 1
    requires forall i | 0 <= i < |parts| :: sep !in parts[i]
    ensures Split(Join(parts, sep), sep) == parts
  {
    if |parts| > 1 {
      var s := Join(parts, sep);
      var p := parts[0];
      assert s == p + [sep] + Join(parts[1..], sep);
      IndexOfAfterPiece(p, sep, Join(parts[1..], sep));
      assert s[..|p|] == p;
      assert s[|p| + 1..] == Join(parts[1..], sep);
      SplitJoin(parts[1..], sep);
    }
  }

  /** The numbers among the pieces: each piece trimmed and read with `toNumber`, the `NaN`s
      dropped. */
  function Numbers(pieces: seq<string>, toNumber: string -> Option<int>): (r: seq<int>)
    ensures |r| <= |pieces|
  {
    if pieces == [] then []
    else match toNumber(Trim(pieces[0]))
      case None => Numbers(pieces[1..], toNumber)
      case Some(n) => [n] + Numbers(pieces[1..], toNumber)
  }

  /** What a colour, size or position box stores for the typed text: `null` (None) for blank
      text, otherwise the numbers of its comma-separated pieces. */
  function ParseNumberList(text: string, toNumber: string -> Option<int>): (r: Option<seq<int>>)
    ensures r.None? <==> Trim(text) == ""
    ensures r.Some? ==> |r.value| <= |Split(Trim(text), ',')|
  {
    var val := Trim(text);
    if val == "" then None else Some(Numbers(Split(val, ','), toNumber))
  }

  /** `String(n)` of each number. */
  function Strings(ns: seq<int>): (r: seq<string>)
    ensures |r| == |ns| && forall i | 0 <= i < |ns| :: r[i] == IntToString(ns[i])
  {
    if ns == [] then [] else [IntToString(ns[0])] + Strings(ns[1..])
  }

  /** What the box shows for a stored list: `list?.join(',') || ''`. */
  function ShowNumberList(list: Option<seq<int>>): string {
    if list.None? then "" else Join(Strings(list.value), ',')
  }

  /** `Number` reads back every integer written by `String`. */
  ghost predicate ReadsIntegers(toNumber: string -> Option<int>) {
    forall n: int :: toNumber(IntToString(n)) == Some(n)
  }

  /** A non-empty string without white space at either end. */
  predicate Unpadded(p: string) {
    p != "" && !IsJsSpace(p[0]) && !IsJsSpace(p[|p| - 1])
  }

  /** `String(n)` has no white space around it and no comma in it. */
  lemma IntToStringPlain(n: int)
    ensures ',' !in IntToString(n)
    ensures Unpadded(IntToString(n))
    ensures Trim(IntToString(n)) == IntToString(n)
  {
    var s := IntToString(n);
    if n < 0 {
      assert s == "-" + NatToString(-n);
      assert forall i | 1 <= i < |s| :: s[i] == NatToString(-n)[i - 1];
    }
    assert forall i | 0 <= i < |s| :: s[i] == '-' || IsDigit(s[i]);
    assert |s| == 1 || IsDigit(s[|s| - 1]);
    TrimUnpadded(s);
  }

  /** `String(n)` is left as it is by `trim`. */
  lemma TrimIntToString(n: int)
    ensures Trim(IntToString(n)) == IntToString(n)
  {
    IntToStringPlain(n);
  }

  /** The first and last character of a list written by `ShowNumberList` are those of its
      first and last number. */
  lemma {:induction false} JoinEnds(parts: seq<string>, sep: char)
    requires |parts| >= 1 && forall i | 0 <= i < |parts| :: parts[i] != ""
    ensures var s := Join(parts, sep); |s| > 0 && s[0] == parts[0][0] && s[|s| - 1] == parts[|parts| - 1][|parts[|parts| - 1]| - 1]
  {
    if |parts| > 1 {
      JoinEnds(parts[1..], sep);
    }
  }

  /** Numbers read back from their own `String`s: the pieces of a shown list give its numbers. */
  lemma {:induction false} NumbersOfShown(ns: seq<int>, toNumber: string -> Option<int>)
    requires ReadsIntegers(toNumber)
    ensures Numbers(Strings(ns), toNumber) == ns
  {
    if ns != [] {
      TrimIntToString(ns[0]);
      assert toNumber(IntToString(ns[0])) == Some(ns[0]);
      NumbersOfShown(ns[1..], toNumber);
    }
  }

  /** Pieces without white space at their ends join into text without white space at its
      ends. */
  lemma JoinUnpadded(parts: seq<string>, sep: char)
    requires |parts| >= 1
    requires forall i | 0 <= i < |parts| :: Unpadded(parts[i])
    ensures Trim(Join(parts, sep)) == Join(parts, sep)
  {
    JoinEnds(parts, sep);
    TrimUnpadded(Join(parts, sep));
  }

  /** The pieces a non-empty list is shown with: no commas, no white space around the text. */
  lemma ShownListPlain(ns: seq<int>)
    requires ns != []
    ensures forall i | 0 <= i < |ns| :: ',' !in Strings(ns)[i]
    ensures Trim(ShowNumberList(Some(ns))) == ShowNumberList(Some(ns))
  {
    var pieces := Strings(ns);
    forall i | 0 <= i < |ns|
      ensures ',' !in pieces[i] && Unpadded(pieces[i])
    {
      IntToStringPlain(ns[i]);
    }
    JoinUnpadded(pieces, ',');
  }

  /** A non-empty stored list shown in its box and read back is the same list, while an empty
      list shows as blank text and so is stored back as `null`. */
  lemma NumberListRoundTrip(ns: seq<int>, toNumber: string -> Option<int>)
    requires ReadsIntegers(toNumber)
    ensures ns != [] ==> ParseNumberList(ShowNumberList(Some(ns)), toNumber) == Some(ns)
    ensures ns == [] ==> ParseNumberList(ShowNumberList(Some(ns)), toNumber).None?
  {
    if ns != [] {
      ShownListPlain(ns);
      SplitJoin(Strings(ns), ',');
      NumbersOfShown(ns, toNumber);
    }
  }

  // ----- the corner lock -----

  /** The corner lock options: none, or corners 1 to 4. */
  const CornerOptions: seq<string> := ["", "1", "2", "3", "4"]

  /** What the selector stores for the chosen option: `null` (None) for the empty option,
      otherwise `Number(val)`, which for the option values `1`–`4` is the number they spell. */
  function LockCorner(val: string): (r: Option<int>)
    requires val in CornerOptions
    ensures r.None? <==> val == ""
    ensures r.Some? ==> 1 <= r.value <= 4 && val == IntToString(r.value)
  {
    if val == "" then None
    else if val == "1" then Some(1) else if val == "2" then Some(2) else if val == "3" then Some(3) else Some(4)
  }

  /** The option the selector shows for the stored corner: `lock_corner ?? ''`. */
  function ShownCorner(corner: Option<int>): string {
    if corner.None? then "" else IntToString(corner.value)
  }

  /** Choosing an option and showing what was stored selects the same option again. */
  lemma LockCornerRoundTrip(val: string)
    requires val in CornerOptions
    ensures ShownCorner(LockCorner(val)) == val
  {
  }
}
