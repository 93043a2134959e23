/** The part of Rack's query-string parser that decides which keys a query
    string carries: split on `&` or `;` (each separator also swallows the
    spaces that follow it), drop empty pieces, and take each piece's text
    before its first `=` as the key. */
module Query {

  predicate IsSeparator(c: char) {
    c == '&' || c == ';'
  }

  predicate NoSeparator(s: string) {
    forall i :: 0 <= i < |s| ==> !IsSeparator(s[i])
  }

  predicate NoEquals(s: string) {
    forall i :: 0 <= i < |s| ==> s[i] != '='
  }

  /** Index of the first separator, or `|s|` when there is none. */
  function FirstSeparator(s: string): (i: nat)
    ensures i <= |s|
    ensures NoSeparator(s[..i])
    ensures i < |s| ==> IsSeparator(s[i])
  {
    if |s| == 0 then 0
    else if IsSeparator(s[0]) then 0
    else
      var j := FirstSeparator(s[1..]);
      assert s[1..][..j] == s[1..1 + j];
      1 + j
  }

  /** The ` *` that follows a separator in the split pattern. */
  function DropSpaces(s: string): (r: string)
    ensures |r| <= |s| && r == s[|s| - |r|..]
    ensures |r| == 0 || r[0] != ' '
    ensures forall i :: 0 <= i < |s| - |r| ==> s[i] == ' '
  {
    if |s| > 0 && s[0] == ' ' then DropSpaces(s[1..]) else s
  }

  /** The text of a piece before its first `=` (the whole piece when it has none). */
  function KeyOf(piece: string): (k: string)
    ensures k <= piece
    ensures NoEquals(k)
    ensures |k| < |piece| ==> piece[|k|] == '='
  {
    if |piece| == 0 || piece[0] == '=' then []
    else [piece[0]] + KeyOf(piece[1..])
  }

  /** The keys of a query string, in order, one per non-empty piece. */
  function Keys(qs: string): (ks: seq<string>)
    ensures forall k <- ks :: NoSeparator(k) && NoEquals(k)
    decreases |qs|
  {
    var i := FirstSeparator(qs);
    var head := if i == 0 then [] else [KeyOf(qs[..i])];
    if i == |qs| then head else head + Keys(DropSpaces(qs[i + 1..]))
  }

  /** Rack's `parse_query(qs).has_key?(key)`. */
  predicate HasKey(qs: string, key: string) {
    key in Keys(qs)
  }

  /** A key=value pair, the way a well-formed query string is written. */
  datatype Param = Param(key: string, value: string)

  /** A pair that survives the round trip: the key holds no `=`, no separator
      and does not start with a space; the value holds no separator. */
  predicate WellFormed(p: Param) {
    && NoEquals(p.key) && NoSeparator(p.key)
    && (|p.key| == 0 || p.key[0] != ' ')
    && NoSeparator(p.value)
  }

  function PieceOf(p: Param): string {
    p.key + "=" + p.value
  }

  /** `k1=v1&k2=v2&...` */
  function Encode(ps: seq<Param>): string {
    if |ps| == 0 then ""
    else if |ps| == 1 then PieceOf(ps[0])
    else PieceOf(ps[0]) + "&" + Encode(ps[1..])
  }

  function KeysOfParams(ps: seq<Param>): (ks: seq<string>)
    ensures |ks| == |ps|
    ensures forall i :: 0 <= i < |ps| ==> ks[i] == ps[i].key
  {
    seq(|ps|, i requires 0 <= i < |ps| => ps[i].key)
  }

  lemma {:induction false} FirstSeparatorAfter(a: string, c: char, b: string)
    requires NoSeparator(a) && IsSeparator(c)
    ensures FirstSeparator(a + [c] + b) == |a|
  {
    if |a| > 0 {
      assert (a + [c] + b)[1..] == a[1..] + [c] + b;
      FirstSeparatorAfter(a[1..], c, b);
    }
  }

  lemma {:induction false} FirstSeparatorNone(s: string)
    requires NoSeparator(s)
    ensures FirstSeparator(s) == |s|
  {
    if |s| > 0 {
      FirstSeparatorNone(s[1..]);
    }
  }

  lemma {:induction false} KeyOfPiece(p: Param)
    requires NoEquals(p.key)
    ensures KeyOf(PieceOf(p)) == p.key
    decreases |p.key|
  {
    if |p.key| > 0 {
      assert PieceOf(p)[1..] == PieceOf(Param(p.key[1..], p.value));
      KeyOfPiece(Param(p.key[1..], p.value));
    }
  }

  lemma EncodeStart(ps: seq<Param>)
    requires |ps| > 0 && WellFormed(ps[0])
    ensures |Encode(ps)| > 0 && Encode(ps)[0] != ' '
  {
    assert Encode(ps)[..|PieceOf(ps[0])|] == PieceOf(ps[0]);
  }

  lemma EncodeNoSeparator(p: Param)
    requires WellFormed(p)
    ensures NoSeparator(PieceOf(p))
  {
  }

  lemma KeysOfSingle(piece: string)
    requires |piece| > 0 && NoSeparator(piece)
    ensures Keys(piece) == [KeyOf(piece)]
  {
    FirstSeparatorNone(piece);
    assert piece[..|piece|] == piece;
  }

  lemma KeysOfJoin(piece: string, rest: string)
    requires |piece| > 0 && NoSeparator(piece)
    requires |rest| > 0 && rest[0] != ' '
    ensures Keys(piece + ['&'] + rest) == [KeyOf(piece)] + Keys(rest)
  {
    var qs := piece + ['&'] + rest;
    FirstSeparatorAfter(piece, '&', rest);
    assert qs[..|piece|] == piece;
    assert qs[|piece| + 1..] == rest;
  }

  /** Decoding the keys of an encoded query string gives back its keys. */
  lemma {:induction false} KeysOfEncode(ps: seq<Param>)
    requires forall p <- ps :: WellFormed(p)
    ensures Keys(Encode(ps)) == KeysOfParams(ps)
  {
    if |ps| == 1 {
      EncodeNoSeparator(ps[0]);
      KeysOfSingle(PieceOf(ps[0]));
      KeyOfPiece(ps[0]);
    } else if |ps| > 1 {
      var piece := PieceOf(ps[0]);
      var rest := Encode(ps[1..]);
      assert Encode(ps) == piece + ['&'] + rest;
      EncodeNoSeparator(ps[0]);
      EncodeStart(ps[1..]);
      KeysOfJoin(piece, rest);
      KeyOfPiece(ps[0]);
      KeysOfEncode(ps[1..]);
      assert KeysOfParams(ps) == [ps[0].key] + KeysOfParams(ps[1..]);
    }
  }

  /** A well-formed query string carries exactly the keys it was written with. */
  lemma HasKeyOfEncode(ps: seq<Param>, key: string)
    requires forall p <- ps :: WellFormed(p)
    ensures HasKey(Encode(ps), key) <==> exists i :: 0 <= i < |ps| && ps[i].key == key
  {
    KeysOfEncode(ps);
  }

  /** A single `key=value` pair carries exactly its key: whatever the value
      holds, even a `?` followed by something shaped like `key=`, is not a key. */
  lemma KeysOfPair(k: string, v: string)
    requires WellFormed(Param(k, v))
    ensures Keys(k + "=" + v) == [k]
  {
    KeysOfEncode([Param(k, v)]);
  }
}
