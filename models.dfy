/** The server's record rules: the percentage validator on the template
    coordinates, the display-mode choices of a device, and the `__str__`
    texts of products and devices. */
module Models {
  import opened Wrappers

  const PERCENT_ERROR: string := "O valor deve estar entre 0 e 100 (representando a % da tela)."

  /** What a field validator does: accept silently, or raise with a message. */
  datatype Validation = Accepted | Rejected(message: string)

  /** `validar_porcentagem`: a screen coordinate is a percentage. */
  function ValidarPorcentagem(value: int): (r: Validation)
    ensures r.Accepted? <==> 0 <= value <= 100
    ensures r.Rejected? ==> r.message == PERCENT_ERROR
  {
    if value < 0 || value > 100 then Rejected(PERCENT_ERROR) else Accepted
  }

  /** The validated coordinates of a video template. */
  datatype Coordinates = Coordinates(
    tituloTop: int, tituloLeft: int,
    precoTop: int, precoLeft: int,
    imgTop: int, imgLeft: int, imgWidth: int)

  predicate CoordinatesValid(c: Coordinates) {
    && ValidarPorcentagem(c.tituloTop).Accepted?
    && ValidarPorcentagem(c.tituloLeft).Accepted?
    && ValidarPorcentagem(c.precoTop).Accepted?
    && ValidarPorcentagem(c.precoLeft).Accepted?
    && ValidarPorcentagem(c.imgTop).Accepted?
    && ValidarPorcentagem(c.imgLeft).Accepted?
    && ValidarPorcentagem(c.imgWidth).Accepted?
  }

  /** The field defaults of a new template; each passes its own validator. */
  function DefaultCoordinates(): (c: Coordinates)
    ensures CoordinatesValid(c)
  {
    Coordinates(10, 50, 50, 50, 30, 10, 20)
  }

  /** `modo_exibicao` of a device. */
  datatype DisplayMode = Tabela | Video | Misto

  const DEFAULT_MODE: DisplayMode := Tabela

  /** The stored value of each choice. */
  function ModeCode(m: DisplayMode): string {
    match m
    case Tabela => "TABELA"
    case Video => "VIDEO"
    case Misto => "MISTO"
  }

  /** Choice validation of a stored value: only the three codes are accepted. */
  function ParseMode(s: string): (r: Option<DisplayMode>)
    ensures r.Some? <==> s in {"TABELA", "VIDEO", "MISTO"}
  {
    if s == "TABELA" then Some(Tabela)
    else if s == "VIDEO" then Some(Video)
    else if s == "MISTO" then Some(Misto)
    else None
  }

  /** Every choice is stored as a code that reads back as itself, the
      default among them, and no two choices share a code. */
  lemma ModeCodeRoundTrip(m: DisplayMode, s: string)
    ensures ParseMode(ModeCode(m)) == Some(m)
    ensures ParseMode(s).Some? ==> ModeCode(ParseMode(s).value) == s
    ensures ParseMode(ModeCode(DEFAULT_MODE)) == Some(Tabela)
  {
  }

  /** `Produto.__str__`: the code, a spaced dash, the description. */
  function ProdutoStr(codigo: string, descricao: string): (r: string)
    ensures |r| == |codigo| + 3 + |descricao|
    ensures r[..|codigo|] == codigo && r[|codigo|..|codigo| + 3] == " - "
    ensures r[|codigo| + 3..] == descricao
  {
    codigo + " - " + descricao
  }

  /** 16 to the power `w`. */
  function Pow16(w: nat): (r: nat)
    ensures r >= 1
  {
    if w == 0 then 1 else 16 * Pow16(w - 1)
  }

  function HexDigit(d: nat): char
    requires d < 16
  {
    "0123456789abcdef"[d]
  }

  function HexValue(c: char): nat {
    if '0' <= c <= '9' then c as int - '0' as int
    else if 'a' <= c <= 'f' then c as int - 'a' as int + 10
    else 0
  }

  /** `n` as `w` lower-case hexadecimal digits, most significant first. */
  function Hex(n: nat, w: nat): (r: string)
    ensures |r| == w
  {
    if w == 0 then [] else Hex(n / 16, w - 1) + [HexDigit(n % 16)]
  }

  /** The number that a string of hexadecimal digits denotes. */
  function ParseHex(s: string): nat {
    if s == [] then 0 else ParseHex(s[..|s| - 1]) * 16 + HexValue(s[|s| - 1])
  }

  /** `w` hexadecimal digits hold every number below `16^w` without loss. */
  lemma {:induction false} HexRoundTrip(n: nat, w: nat)
    requires n < Pow16(w)
    ensures ParseHex(Hex(n, w)) == n
  {
    if w > 0 {
      HexRoundTrip(n / 16, w - 1);
      var r := Hex(n, w);
      assert r[..|r| - 1] == Hex(n / 16, w - 1);
    }
  }

  /** A UUID is a 128-bit number. */
  type Uuid = u: nat | u < 0x1_0000_0000_0000_0000_0000_0000_0000_0000

  /** `str(uuid)`: 32 hexadecimal digits in groups of 8, 4, 4, 4 and 12. */
  function UuidStr(u: Uuid): (r: string)
    ensures |r| == 36
    ensures r[8] == '-' && r[13] == '-' && r[18] == '-' && r[23] == '-'
    ensures r[..8] + r[9..13] + r[14..18] + r[19..23] + r[24..] == Hex(u, 32)
  {
    var h := Hex(u, 32);
    var r := h[..8] + "-" + h[8..12] + "-" + h[12..16] + "-" + h[16..20] + "-" + h[20..];
    assert r[..8] == h[..8] && r[9..13] == h[8..12] && r[14..18] == h[12..16];
    assert r[19..23] == h[16..20] && r[24..] == h[20..];
    assert h == h[..8] + h[8..12] + h[12..16] + h[16..20] + h[20..];
    r
  }

  /** `Dispositivo.__str__`: the name followed by the first eight characters
      of the UUID in parentheses; those are the first eight hexadecimal
      digits, since the first hyphen comes after them. */
  function DispositivoStr(nome: string, u: Uuid): (r: string)
    ensures r == nome + " (" + Hex(u, 32)[..8] + ")"
  {
    nome + " (" + UuidStr(u)[..8] + ")"
  }

  /** Distinct UUIDs have distinct texts: the text determines the UUID. */
  lemma UuidStrDetermines(u: Uuid, v: Uuid)
    requires UuidStr(u) == UuidStr(v)
    ensures u == v
  {
    assert Pow16(32) == 0x1_0000_0000_0000_0000_0000_0000_0000_0000 by {
      assert Pow16(8) == 0x1_0000_0000;
      assert Pow16(16) == Pow16(8) * Pow16(8) by { Pow16Add(8, 8); }
      assert Pow16(32) == Pow16(16) * Pow16(16) by { Pow16Add(16, 16); }
    }
    HexRoundTrip(u, 32);
    HexRoundTrip(v, 32);
  }

  lemma {:induction false} Pow16Add(a: nat, b: nat)
    ensures Pow16(a + b) == Pow16(a) * Pow16(b)
  {
    if b > 0 {
      Pow16Add(a, b - 1);
    }
  }
}
