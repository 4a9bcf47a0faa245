/** The device API: pairing a TV by its short access code, and the data
    snapshot a paired TV polls for (its configuration, the products of its
    price table, and a playlist of product videos and advertisements
    ordered by `ordem_visual`). */
module Api {
  import opened Wrappers
  import opened Sorting
  import Strings
  import Models

  type FamilyId = int

  /** A video template as the product serializer nests it, with every
      column of the template model: name, video, the layout coordinates, and
      the title and price colours and sizes. `duracao` is read
      with a default of 15 seconds; the template model declares no such
      field, so in practice it is absent. */
  datatype TemplateData = TemplateData(
    id: int, nome: string, arquivoVideo: string,
    coordenadas: Models.Coordinates,
    tituloCor: string, tituloTamanho: string, precoCor: string, precoTamanho: string,
    duracao: Option<int>)

  /** A product as serialized for the TV. `ordem` is read with a default of
      0; the product serializer does not emit it, so in practice it is absent.
      `preco` is the decimal's text, as the serializer renders decimals. */
  datatype ProdutoData = ProdutoData(
    codigo: string, descricao: string, preco: string, familiaNome: string,
    imagem: Option<string>, emOferta: bool, template: Option<TemplateData>, ordem: Option<int>)

  /** A product row: the fields the query filters on, and its serialized form. */
  datatype Produto = Produto(familia: FamilyId, exibirNoPainel: bool, data: ProdutoData)

  /** An advertisement video attached to a device. */
  datatype Propaganda = Propaganda(url: string, descricao: string, duracao: int, ordem: int, ativo: bool)

  /** A paired TV. `familias` is absent when the device has no family set. */
  datatype Dispositivo = Dispositivo(
    uuid: Models.Uuid, nome: string, modo: Models.DisplayMode, codigoAcesso: string,
    tituloExibicao: Option<string>, familias: Option<set<FamilyId>>, propagandas: seq<Propaganda>)

  /** One entry of `playlist_final`, tagged `produto` or `propaganda`. */
  datatype PlaylistItem =
    | ProductItem(produto: ProdutoData, ordemVisual: int, duracao: int)
    | AdItem(url: string, descricao: string, duracao: int, ordemVisual: int)

  /** `serializar_propaganda`'s dictionary; its `tipo` is always `propaganda`. */
  datatype AdView = AdView(url: string, descricao: string, duracao: int)

  datatype ConfigData = ConfigData(nome: string, modo: Models.DisplayMode, uuid: Models.Uuid, tituloExibicao: string)

  /** The body of a successful `dados_painel` response. */
  datatype PanelData = PanelData(config: ConfigData, produtos: seq<ProdutoData>, playlist: seq<PlaylistItem>)

  /** The outcome of `parear_dispositivo`. */
  datatype PairResponse =
    | Paired(uuid: Models.Uuid, nome: string)      // 200
    | InvalidCode(erro: string)                   // 404
    | AmbiguousCode                               // more than one match: the lookup raises, 500

  const INVALID_CODE: string := "Código inválido"
  const NOT_FOUND: int := 404

  /** The code as looked up: surrounding whitespace removed, letters in upper case. */
  function NormalizeCode(codigo: string): (r: string)
    ensures |r| <= |codigo|
    ensures r == [] || (!Strings.IsSpace(r[0]) && !Strings.IsSpace(r[|r| - 1]))
    ensures forall i :: 0 <= i < |r| ==> !('a' <= r[i] <= 'z')
  {
    var t := Strings.Trim(codigo);
    var r := Strings.Upper(t);
    forall i | 0 <= i < |r|
      ensures (Strings.IsSpace(r[i]) <==> Strings.IsSpace(t[i])) && !('a' <= r[i] <= 'z')
    {
      Strings.UpperCharFacts(t[i]);
    }
    r
  }

  /** Device `i` exists and holds `code`. */
  predicate HoldsCode(devices: seq<Dispositivo>, code: string, i: int) {
    0 <= i < |devices| && devices[i].codigoAcesso == code
  }

  /** Device `i` is the only one holding `code`. */
  ghost predicate OnlyHolder(devices: seq<Dispositivo>, code: string, i: int) {
    HoldsCode(devices, code, i) && forall j :: HoldsCode(devices, code, j) ==> j == i
  }

  /** The first device at or after `from` that holds `code`, if any. */
  function FirstHolder(devices: seq<Dispositivo>, code: string, from: nat): (r: Option<nat>)
    ensures r.None? <==> forall k :: from <= k ==> !HoldsCode(devices, code, k)
    ensures r.Some? ==> from <= r.value && HoldsCode(devices, code, r.value)
    ensures r.Some? ==> forall k :: from <= k < r.value ==> !HoldsCode(devices, code, k)
    decreases |devices| - from
  {
    if from >= |devices| then None
    else if devices[from].codigoAcesso == code then
      assert HoldsCode(devices, code, from);
      Some(from)
    else
      var r := FirstHolder(devices, code, from + 1);
      assert forall k :: from <= k ==> (!HoldsCode(devices, code, k) <==> k == from || (from + 1 <= k ==> !HoldsCode(devices, code, k)));
      r
  }

  /** `Dispositivo.objects.get(codigo_acesso=code)`: no match is the invalid-
      code answer, a single match pairs with that device, and a second match
      raises. */
  function LookupCode(devices: seq<Dispositivo>, code: string): (r: PairResponse)
    ensures r.InvalidCode? <==> forall i :: !HoldsCode(devices, code, i)
    ensures r.InvalidCode? ==> r.erro == INVALID_CODE
    ensures r.AmbiguousCode? <==> exists i, j :: i < j && HoldsCode(devices, code, i) && HoldsCode(devices, code, j)
    ensures forall i :: OnlyHolder(devices, code, i) ==> r == Paired(devices[i].uuid, devices[i].nome)
    ensures r.Paired? ==> exists i :: OnlyHolder(devices, code, i) && r == Paired(devices[i].uuid, devices[i].nome)
  {
    match FirstHolder(devices, code, 0)
    case None => InvalidCode(INVALID_CODE)
    case Some(first) =>
      match FirstHolder(devices, code, first + 1)
      case None =>
        assert OnlyHolder(devices, code, first);
        Paired(devices[first].uuid, devices[first].nome)
      case Some(second) =>
        assert HoldsCode(devices, code, first) && HoldsCode(devices, code, second);
        AmbiguousCode
  }

  /** `parear_dispositivo`: `codigo` is the request's field, absent meaning the
      empty string. The lookup runs on the normalised code: a single device
      holding it answers with its identity, none gives the invalid-code
      error, and several make the lookup raise. */
  function ParearDispositivo(devices: seq<Dispositivo>, codigo: Option<string>): (r: PairResponse)
    ensures var code := NormalizeCode(codigo.GetOr(""));
      && (r.InvalidCode? <==> forall i :: !HoldsCode(devices, code, i))
      && (r.InvalidCode? ==> r.erro == INVALID_CODE)
      && (r.AmbiguousCode? <==> exists i, j :: i < j && HoldsCode(devices, code, i) && HoldsCode(devices, code, j))
      && (forall i :: OnlyHolder(devices, code, i) ==> r == Paired(devices[i].uuid, devices[i].nome))
      && (r.Paired? ==> exists i :: OnlyHolder(devices, code, i) && r == Paired(devices[i].uuid, devices[i].nome))
  {
    LookupCode(devices, NormalizeCode(codigo.GetOr("")))
  }

  /** Trimming before normalising changes nothing. */
  lemma NormalizeTrimmed(typed: string)
    ensures NormalizeCode(Strings.Trim(typed)) == NormalizeCode(typed)
  {
    Strings.TrimIdempotent(typed);
  }

  /** Lower-casing before normalising changes nothing. */
  lemma NormalizeLowered(typed: string)
    ensures NormalizeCode(Strings.Lower(typed)) == NormalizeCode(typed)
  {
    Strings.TrimLower(typed);
    Strings.UpperLower(Strings.Trim(typed));
  }

  /** The client may type the code in lower case or with surrounding spaces. */
  lemma PairingIgnoresCaseAndSpaces(devices: seq<Dispositivo>, typed: string)
    ensures ParearDispositivo(devices, Some(typed)) == ParearDispositivo(devices, Some(Strings.Trim(typed)))
    ensures ParearDispositivo(devices, Some(typed)) == ParearDispositivo(devices, Some(Strings.Lower(typed)))
  {
    NormalizeTrimmed(typed);
    NormalizeLowered(typed);
    assert Some(typed).GetOr("") == typed;
    assert Some(Strings.Trim(typed)).GetOr("") == Strings.Trim(typed);
    assert Some(Strings.Lower(typed)).GetOr("") == Strings.Lower(typed);
  }

  /** `serializar_propaganda`. */
  function SerializarPropaganda(p: Propaganda): (r: AdView)
    ensures r.url == p.url && r.descricao == p.descricao && r.duracao == p.duracao
  {
    AdView(p.url, p.descricao, p.duracao)
  }

  /** Whether a product belongs on a device's table: displayable, and in one
      of the device's families when it has a non-empty family set. */
  function ShownOn(familias: Option<set<FamilyId>>): Produto -> bool {
    (p: Produto) => p.exibirNoPainel && (familias.None? || familias.value == {} || p.familia in familias.value)
  }

  /** The table products: the query's rows that the device shows, in query order. */
  function TableProducts(produtos: seq<Produto>, familias: Option<set<FamilyId>>): (r: seq<Produto>)
    ensures forall p :: p in r <==>
      (p in produtos && p.exibirNoPainel && (familias.None? || familias.value == {} || p.familia in familias.value))
  {
    var r := Filter(produtos, ShownOn(familias));
    forall p ensures p in r <==> p in produtos && ShownOn(familias)(p) {
      FilterMember(produtos, ShownOn(familias), p);
    }
    r
  }

  function Serialized(produtos: seq<Produto>): seq<ProdutoData> {
    seq(|produtos|, i requires 0 <= i < |produtos| => produtos[i].data)
  }

  /** The playlist entry for a product with a template: its order defaults
      to 0 and its duration is the template's, defaulting to 15. */
  function ProductEntry(p: ProdutoData): PlaylistItem
    requires p.template.Some?
  {
    ProductItem(p, p.ordem.GetOr(0), p.template.value.duracao.GetOr(15))
  }

  predicate HasTemplate(p: ProdutoData) {
    p.template.Some?
  }

  /** The first loop: an entry per product with a template, in product order. */

  function ProductItems(dados: seq<ProdutoData>): (r: seq<PlaylistItem>)
    ensures forall it :: it in r ==>
      (it.ProductItem? && it.produto in dados && it.produto.template.Some? && it == ProductEntry(it.produto))
    ensures forall p :: p in dados && p.template.Some? ==> ProductEntry(p) in r
  {
    if dados == [] then []
    else
      var last := dados[|dados| - 1];
      var r := ProductItems(dados[..|dados| - 1]) + (if last.template.Some? then [ProductEntry(last)] else []);
      assert dados == dados[..|dados| - 1] + [last];
      r
  }

  /** The entry for an advertisement, carrying its own order. */
  function AdEntry(a: Propaganda): PlaylistItem {
    AdItem(a.url, a.descricao, a.duracao, a.ordem)
  }

  predicate IsActive(a: Propaganda) {
    a.ativo
  }

  /** The second loop: an entry per active advertisement, in device order. */

  function AdItems(ads: seq<Propaganda>): (r: seq<PlaylistItem>)
    ensures forall it :: it in r ==> it.AdItem? && exists a :: a in ads && a.ativo && it == AdEntry(a)
    ensures forall a :: a in ads && a.ativo ==> AdEntry(a) in r
  {
    if ads == [] then []
    else
      var last := ads[|ads| - 1];
      var r := AdItems(ads[..|ads| - 1]) + (if last.ativo then [AdEntry(last)] else []);
      assert ads == ads[..|ads| - 1] + [last];
      r
  }

  /** The first loop gives exactly one entry per product with a template,
      in product order. */
  lemma {:induction false} ProductItemsInOrder(dados: seq<ProdutoData>)
    ensures var r, f := ProductItems(dados), Filter(dados, HasTemplate);
      |r| == |f| && forall i :: 0 <= i < |r| ==> r[i] == ProductEntry(f[i])
    decreases |dados|
  {
    if dados != [] {
      ProductItemsInOrder(dados[..|dados| - 1]);
    }
  }

  /** The second loop gives exactly one entry per active advertisement, in
      device order. */
  lemma {:induction false} AdItemsInOrder(ads: seq<Propaganda>)
    ensures var r, f := AdItems(ads), Filter(ads, IsActive);
      |r| == |f| && forall i :: 0 <= i < |r| ==> r[i] == AdEntry(f[i])
    decreases |ads|
  {
    if ads != [] {
      AdItemsInOrder(ads[..|ads| - 1]);
    }
  }

  /** The playlist's entries for an advertisement agree with `serializar_propaganda`. */
  lemma AdEntryAgreesWithSerializer(a: Propaganda)
    ensures var e := AdEntry(a); var v := SerializarPropaganda(a);
      e.url == v.url && e.descricao == v.descricao && e.duracao == v.duracao
  {
  }

  /** The sort key order of `lista_mista.sort(key=lambda x: x['ordem_visual'])`. */
  function ByOrder(a: PlaylistItem, b: PlaylistItem): bool {
    a.ordemVisual <= b.ordemVisual
  }

  function AtOrder(k: int): PlaylistItem -> bool {
    (it: PlaylistItem) => it.ordemVisual == k
  }

  /** `dados_painel` for the device with `uuid`, given the product rows (in
      the query's order) and the devices. */
  method DadosPainel(devices: map<Models.Uuid, Dispositivo>, uuid: Models.Uuid, produtos: seq<Produto>)
    returns (r: Result<PanelData, int>)
    ensures uuid !in devices ==> r == Failure(NOT_FOUND)
    ensures uuid in devices ==> r.Success?
    ensures r.Success? ==>
      var d := devices[uuid];
      var table := Serialized(TableProducts(produtos, d.familias));
      var fromProducts, fromAds := ProductItems(table), AdItems(d.propagandas);
      && r.value.config == ConfigData(d.nome, d.modo, d.uuid, d.tituloExibicao.GetOr(""))
      && r.value.produtos == table
      && multiset(r.value.playlist) == multiset(fromProducts + fromAds)
      && SortedBy(r.value.playlist, ByOrder)
      && (forall k :: Filter(r.value.playlist, AtOrder(k)) == Filter(fromProducts, AtOrder(k)) + Filter(fromAds, AtOrder(k)))
  {
    if uuid !in devices {
      return Failure(NOT_FOUND);
    }
    var d := devices[uuid];
    var config := ConfigData(d.nome, d.modo, d.uuid, d.tituloExibicao.GetOr(""));
    var dados := Serialized(TableProducts(produtos, d.familias));

    var lista: seq<PlaylistItem> := [];
    var i := 0;
    while i < |dados|
      invariant 0 <= i <= |dados|
      invariant lista == ProductItems(dados[..i])
    {
      var p := dados[i];
      if p.template.Some? {
        lista := lista + [ProductEntry(p)];
      }
      assert dados[..i + 1][..i] == dados[..i];
      i := i + 1;
    }
    assert dados[..i] == dados;
    var fromProducts := lista;

    var ads := d.propagandas;
    var j := 0;
    while j < |ads|
      invariant 0 <= j <= |ads|
      invariant lista == fromProducts + AdItems(ads[..j])
    {
      if ads[j].ativo {
        lista := lista + [AdEntry(ads[j])];
      }
      assert ads[..j + 1][..j] == ads[..j];
      j := j + 1;
    }
    assert ads[..j] == ads;

    var playlist := SortBy(lista, ByOrder);
    SortBySorted(lista, ByOrder);
    forall k
      ensures Filter(playlist, AtOrder(k)) == Filter(fromProducts, AtOrder(k)) + Filter(AdItems(ads), AtOrder(k))
    {
      SortByStable(lista, ByOrder, AtOrder(k));
      FilterAppend(fromProducts, AdItems(ads), AtOrder(k));
    }
    r := Success(PanelData(config, dados, playlist));
  }
}
