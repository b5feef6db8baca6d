/**
 * Delimited text and decimal integers, as the share-link parameters use them.
 */
module ShareText {
  import opened Options

  /** The parameters of a link, by name. */
  type Params = map<string, string>

  /** A link in the current format. */
  predicate Current(params: Params) {
    "v" in params && params["v"] == "2"
  }

  // ------------------------------------------------------------- split and join

  function Split(s: string, d: char): (parts: seq<string>)
    ensures parts != []
  {
    if s == [] then [""]
    else
      var rest := Split(s[1..], d);
      if s[0] == d then [""] + rest else [[s[0]] + rest[0]] + rest[1..]
  }

  function Join(parts: seq<string>, d: char): string {
    if parts == [] then ""
    else if |parts| == 1 then parts[0]
    else parts[0] + [d] + Join(parts[1..], d)
  }

  lemma {:induction false} SplitPiece(piece: string, rest: string, d: char)
    requires d !in piece
    ensures Split(piece + [d] + rest, d) == [piece] + Split(rest, d)
    ensures Split(piece, d) == [piece]
  {
    if piece == [] {
      assert piece + [d] + rest == [d] + rest;
    } else {
      SplitPiece(piece[1..], rest, d);
      assert (piece + [d] + rest)[1..] == piece[1..] + [d] + rest;
      assert [piece[0]] + piece[1..] == piece;
      assert ([piece[1..]] + Split(rest, d))[1..] == Split(rest, d);
    }
  }

  /** Splitting undoes joining when no part holds the delimiter. */
  lemma {:induction false} SplitJoin(parts: seq<string>, d: char)
    requires parts != [] && forall p <- parts :: d !in p
    ensures Split(Join(parts, d), d) == parts
  {
    if |parts| == 1 {
      SplitPiece(parts[0], "", d);
      assert parts == [parts[0]];
    } else {
      SplitPiece(parts[0], Join(parts[1..], d), d);
      SplitJoin(parts[1..], d);
      assert parts == [parts[0]] + parts[1..];
    }
  }

  lemma {:induction false} JoinHolds(parts: seq<string>, d: char, c: char)
    requires c in Join(parts, d)
    ensures c == d || exists p :: p in parts && c in p
  {
    if parts != [] && |parts| > 1 && c !in parts[0] && c != d {
      JoinHolds(parts[1..], d, c);
      var p :| p in parts[1..] && c in p;
      assert p in parts;
    }
  }

  // ----------------------------------------------------------------------- trim

  /** White space and line terminators of ECMAScript. */
  predicate IsSpace(c: char) {
    || c == ' ' || '\t' <= c <= '\r' || c == '\U{00A0}' || c == '\U{1680}' || '\U{2000}' <= c <= '\U{200A}'
    || c == '\U{2028}' || c == '\U{2029}' || c == '\U{202F}' || c == '\U{205F}' || c == '\U{3000}' || c == '\U{FEFF}'
  }

  function TrimStart(s: string): string {
    if s != [] && IsSpace(s[0]) then TrimStart(s[1..]) else s
  }

  function TrimEnd(s: string): string {
    if s != [] && IsSpace(s[|s| - 1]) then TrimEnd(s[..|s| - 1]) else s
  }

  function Trim(s: string): string {
    TrimEnd(TrimStart(s))
  }

  lemma TrimKeeps(s: string)
    requires forall c <- s :: !IsSpace(c)
    ensures Trim(s) == s
  {
  }

  // ------------------------------------------------------------------- integers

  predicate IsDigit(c: char) {
    '0' <= c <= '9'
  }

  function Digit(n: nat): char
    requires n < 10
  {
    (n as char) + '0'
  }

  function PrintNat(n: nat): string {
    if n < 10 then [Digit(n)] else PrintNat(n / 10) + [Digit(n % 10)]
  }

  function Print(n: int): string {
    if n < 0 then "-" + PrintNat(-n) else PrintNat(n)
  }

  /** One or more digits. */
  predicate AllDigits(s: string) {
    s != [] && forall c <- s :: IsDigit(c)
  }

  /** An optional minus sign and digits, leading zeros included. */
  predicate IsInteger(s: string) {
    AllDigits(s) || (s != [] && s[0] == '-' && AllDigits(s[1..]))
  }

  function ParseNat(s: string): int {
    if s == [] then 0 else ParseNat(s[..|s| - 1]) * 10 + (s[|s| - 1] as int - '0' as int)
  }

  function ParseInteger(s: string): int
    requires IsInteger(s)
  {
    if s[0] == '-' then -ParseNat(s[1..]) else ParseNat(s)
  }

  lemma {:induction false} PrintNatParses(n: nat)
    ensures AllDigits(PrintNat(n)) && ParseNat(PrintNat(n)) == n
  {
    if n >= 10 {
      PrintNatParses(n / 10);
      var init := PrintNat(n / 10);
      assert (init + [Digit(n % 10)])[..|init|] == init;
    } else {
      assert PrintNat(n)[..0] == [];
    }
  }

  /** Parsing undoes printing, for every integer. */
  lemma PrintParses(n: int)
    ensures IsInteger(Print(n)) && ParseInteger(Print(n)) == n
    ensures forall c <- Print(n) :: c == '-' || IsDigit(c)
  {
    if n < 0 {
      PrintNatParses(-n);
      assert Print(n)[1..] == PrintNat(-n);
    } else {
      PrintNatParses(n);
      assert IsDigit(PrintNat(n)[0]);
    }
  }

  // ------------------------------------------------------------------ registries

  /** The first registered entry with this token. */
  function ByToken<S>(specs: seq<S>, tokenOf: S -> string, token: string): Option<S> {
    if specs == [] then None
    else if tokenOf(specs[0]) == token then Some(specs[0])
    else ByToken(specs[1..], tokenOf, token)
  }

  lemma {:induction false} ByTokenFinds<S>(specs: seq<S>, tokenOf: S -> string, i: nat)
    requires i < |specs| && forall j :: 0 <= j < i ==> tokenOf(specs[j]) != tokenOf(specs[i])
    ensures ByToken(specs, tokenOf, tokenOf(specs[i])) == Some(specs[i])
  {
    if i > 0 {
      ByTokenFinds(specs[1..], tokenOf, i - 1);
    }
  }

  lemma {:induction false} ByTokenIsRegistered<S>(specs: seq<S>, tokenOf: S -> string, token: string)
    ensures var s := ByToken(specs, tokenOf, token); s.Some? ==> s.value in specs && tokenOf(s.value) == token
  {
    if specs != [] {
      ByTokenIsRegistered(specs[1..], tokenOf, token);
    }
  }
}
