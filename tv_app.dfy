/** The TV client: pairing with a short code, polling the device's data
    snapshot, and the price-table carousel that shows 18 products per page
    in two columns of 9 and turns the page on a timer.

    Timers and replies are events: `Load` is the arrival of one poll's reply,
    `Step` the firing of the next-page timer that `Render` armed, and `Pair`
    a click on the pairing button together with the server's reply. */
module TvApp {
  import opened Wrappers
  import opened Paging
  import Strings
  import Api

  const ITENS_POR_PAGINA: nat := 18
  const ITENS_POR_COLUNA: nat := 9
  /** A product name longer than this scrolls horizontally. */
  const MARQUEE_LIMIT: nat := 22
  const MIN_CODE_LENGTH: nat := 2

  const ENTER_CODE_ALERT: string := "Digite o código."
  const PAIRING_FAILED: string := "FALHA NO PAREAMENTO:\n"

  datatype Screen = Setup | App

  /** One rendered product: the decorations `criarItemHTML` chooses. */
  datatype ItemView = ItemView(produto: Api.ProdutoData, emOferta: bool, marquee: bool)

  /** What the content area shows: nothing yet, the waiting message, or a page. */
  datatype Content = Blank | Waiting | Columns(left: seq<ItemView>, right: seq<ItemView>)

  /** The body of a failed pairing reply: not JSON, or a JSON object with its
      `erro` field (if any) and its `JSON.stringify` text. */
  datatype ErrorBody = Unparsable | JsonBody(erro: Option<string>, text: string)

  /** The outcome of the pairing request. */
  datatype PairReply =
    | Thrown(message: string)                                  // the request or the JSON parse threw
    | PairOk(uuid: string)
    | PairNotOk(status: nat, statusText: string, body: ErrorBody)

  /** The outcome of one poll: any failure is swallowed, so only the data matters. */
  datatype FetchReply = FetchFailed | Fetched(data: Api.PanelData)

  /** The code the click handler sends, if any: the trimmed input, when at
      least two UTF-16 code units remain. */
  function CodeToSend(input: string): (r: Option<string>)
    ensures r.None? <==> Strings.Utf16Length(Strings.Trim(input)) < MIN_CODE_LENGTH
    ensures r.Some? ==> r.value == Strings.Trim(input) && Strings.Utf16Length(r.value) >= MIN_CODE_LENGTH
    ensures r.Some? ==> |r.value| >= 1
  {
    var codigo := Strings.Trim(input);
    if Strings.Utf16Length(codigo) < MIN_CODE_LENGTH then None else Some(codigo)
  }

  /** `errData.erro || JSON.stringify(errData)`, or the status text when the
      body is not JSON. */
  function ErrorDetail(statusText: string, body: ErrorBody): (r: string)
    ensures body.JsonBody? && body.erro.Some? && body.erro.value != "" ==> r == body.erro.value
    ensures body.JsonBody? && (body.erro.None? || body.erro.value == "") ==> r == body.text
    ensures body.Unparsable? ==> r == statusText
  {
    match body
    case Unparsable => statusText
    case JsonBody(erro, text) => if erro.Some? && erro.value != "" then erro.value else text
  }

  /** The error text of a non-OK pairing reply: `Erro <status>: <detail>`. */
  function PairingErrorMessage(status: nat, statusText: string, body: ErrorBody): (r: string)
    ensures var digits := Strings.NatToString(status);
      && |r| == 7 + |digits| + |ErrorDetail(statusText, body)|
      && r[..5] == "Erro "
      && r[5..5 + |digits|] == digits && r[5 + |digits|..7 + |digits|] == ": "
      && r[7 + |digits|..] == ErrorDetail(statusText, body)
  {
    "Erro " + Strings.NatToString(status) + ": " + ErrorDetail(statusText, body)
  }

  /** The status can be read back from the message: the digits after `Erro `
      run up to the first colon and denote the status. */
  lemma StatusReadBack(status: nat, statusText: string, body: ErrorBody)
    ensures var r := PairingErrorMessage(status, statusText, body);
      var k := |Strings.NatToString(status)|;
      && Strings.IsDigits(r[5..5 + k]) && r[5 + k] == ':'
      && Strings.ParseNat(r[5..5 + k]) == status
  {
    Strings.NatToStringRoundTrip(status);
  }

  /** The text after the failure prefix: the thrown error's message, or the
      composed `Erro <status>: <detail>`. */
  function FailureMessage(reply: PairReply): string
    requires !reply.PairOk?
  {
    match reply
    case Thrown(message) => message
    case PairNotOk(status, statusText, body) => PairingErrorMessage(status, statusText, body)
  }

  /** `criarItemHTML`'s choices: the offer marker, and the marquee for long names. */
  function Decorate(p: Api.ProdutoData): ItemView {
    ItemView(p, p.emOferta, Strings.Utf16Length(p.descricao) > MARQUEE_LIMIT)
  }

  function Decorated(ps: seq<Api.ProdutoData>): seq<ItemView> {
    seq(|ps|, i requires 0 <= i < |ps| => Decorate(ps[i]))
  }

  function Products(vs: seq<ItemView>): seq<Api.ProdutoData> {
    seq(|vs|, i requires 0 <= i < |vs| => vs[i].produto)
  }

  /** `Math.ceil(N / 18)`. */
  function TotalPages(n: nat): nat {
    CeilDiv(n, ITENS_POR_PAGINA)
  }

  /** Page `p` as rendered: its window of up to 18 products, decorated, the
      first 9 in the left column and the rest in the right one. */
  function PageView(produtos: seq<Api.ProdutoData>, p: nat): Content {
    var views := Decorated(Window(produtos, p, ITENS_POR_PAGINA));
    var k := Min(ITENS_POR_COLUNA, |views|);
    Columns(views[..k], views[k..])
  }

  /** What a rendered page holds: each column at most 9 items, the left one
      filled first; read left then right the columns are exactly the page's
      window of the product list, `produtos[18p .. min(N, 18p + 18))`; and an
      item is marked as an offer exactly when the product is on offer and
      scrolls exactly when its name is longer than 22 UTF-16 code units. */
  lemma PageViewFacts(produtos: seq<Api.ProdutoData>, p: nat)
    requires p < TotalPages(|produtos|)
    ensures var c := PageView(produtos, p);
      && c.Columns?
      && |c.left| <= ITENS_POR_COLUNA && |c.right| <= ITENS_POR_COLUNA
      && (|c.right| > 0 ==> |c.left| == ITENS_POR_COLUNA)
      && Products(c.left + c.right) == produtos[p * ITENS_POR_PAGINA..Min(|produtos|, p * ITENS_POR_PAGINA + ITENS_POR_PAGINA)]
      && (forall v :: v in c.left + c.right ==>
            (v.emOferta <==> v.produto.emOferta) && (v.marquee <==> Strings.Utf16Length(v.produto.descricao) > MARQUEE_LIMIT))
      && |c.left| + |c.right| > 0
  {
    var c := PageView(produtos, p);
    var window := Window(produtos, p, ITENS_POR_PAGINA);
    PageStartInRange(|produtos|, ITENS_POR_PAGINA, p);
    assert c.left + c.right == Decorated(window);
    assert Products(Decorated(window)) == window;
  }

  /** How the content area follows the cached snapshot: a page is shown only
      for a cached snapshot and is that snapshot's page `paginaAtual`, which
      is in range; the waiting message only for an empty product list; once
      a snapshot is cached something is shown; and the next-page timer is
      armed only over a page of a list with several pages. */
  ghost predicate Displayed(cache: Option<Api.PanelData>, paginaAtual: nat, content: Content, nextPageScheduled: bool) {
    && (content.Columns? ==>
          && cache.Some?
          && paginaAtual < TotalPages(|cache.value.produtos|)
          && content == PageView(cache.value.produtos, paginaAtual))
    && (content.Waiting? ==> cache.Some? && cache.value.produtos == [])
    && (cache.Some? ==> !content.Blank?)
    && (nextPageScheduled ==> content.Columns? && TotalPages(|cache.value.produtos|) > 1)
  }

  class Tv {
    /** `localStorage['tv_device_uuid']`. */
    var stored: Option<string>
    var deviceUUID: Option<string>
    var screen: Screen
    /** Whether the 60-second poll has been armed. */
    var polling: bool
    var alerts: seq<string>
    /** `dadosCache`: the last accepted snapshot. */
    var cache: Option<Api.PanelData>
    var paginaAtual: nat
    var titulo: string
    var content: Content
    /** Whether the next-page timer armed by the last render is pending. */
    var nextPageScheduled: bool

    ghost predicate Valid()
      reads this
    {
      && (polling <==> screen == App)
      && (screen == App ==> deviceUUID.Some?)
      && Displayed(cache, paginaAtual, content, nextPageScheduled)
    }

    /** Start-up: a stored identity starts the app (and its poll); none, or
        an empty one, shows the pairing screen. */
    constructor (storedUUID: Option<string>)
      ensures Valid()
      ensures stored == storedUUID && deviceUUID == storedUUID
      ensures screen == (if storedUUID.Some? && storedUUID.value != "" then App else Setup)
      ensures cache.None? && paginaAtual == 0 && content == Blank && !nextPageScheduled
      ensures alerts == [] && titulo == ""
    {
      stored := storedUUID;
      deviceUUID := storedUUID;
      cache := None;
      paginaAtual := 0;
      titulo := "";
      content := Blank;
      nextPageScheduled := false;
      alerts := [];
      if storedUUID.Some? && storedUUID.value != "" {
        screen := App;
        polling := true;
      } else {
        screen := Setup;
        polling := false;
      }
    }

    /** A click on the pairing button. A code shorter than two characters
        after trimming raises the prompt alert and sends nothing, so `reply`
        is not consulted. Otherwise the server's reply is handled. */
    method Pair(input: string, reply: PairReply)
      requires Valid() && screen == Setup
      modifies this
      ensures Valid()
      ensures cache == old(cache) && paginaAtual == old(paginaAtual) && content == old(content)
      ensures titulo == old(titulo) && nextPageScheduled == old(nextPageScheduled)
      ensures CodeToSend(input).None? ==>
        alerts == old(alerts) + [ENTER_CODE_ALERT] && stored == old(stored) && deviceUUID == old(deviceUUID) && screen == Setup
      ensures CodeToSend(input).Some? && reply.PairOk? ==>
        && stored == Some(reply.uuid) && deviceUUID == Some(reply.uuid)
        && screen == App && polling && alerts == old(alerts)
      ensures CodeToSend(input).Some? && !reply.PairOk? ==>
        && alerts == old(alerts) + [PAIRING_FAILED + FailureMessage(reply)]
        && stored == old(stored) && deviceUUID == old(deviceUUID) && screen == Setup
    {
      var codigo := CodeToSend(input);
      if codigo.None? {
        Alert(ENTER_CODE_ALERT);
        return;
      }
      ReceivePairing(reply);
    }

    /** `alert(message)`: the message is shown and nothing else changes. */
    method Alert(message: string)
      requires Valid()
      modifies this
      ensures Valid() && alerts == old(alerts) + [message]
      ensures stored == old(stored) && deviceUUID == old(deviceUUID) && screen == old(screen) && polling == old(polling)
      ensures cache == old(cache) && paginaAtual == old(paginaAtual) && content == old(content)
      ensures titulo == old(titulo) && nextPageScheduled == old(nextPageScheduled)
    {
      alerts := alerts + [message];
    }

    /** The pairing request's outcome: an OK reply stores the identity and
        starts the app (screen and polling); any other outcome raises the
        failure alert and stores nothing. */
    method ReceivePairing(reply: PairReply)
      requires Valid() && screen == Setup
      modifies this
      ensures Valid()
      ensures cache == old(cache) && paginaAtual == old(paginaAtual) && content == old(content)
      ensures titulo == old(titulo) && nextPageScheduled == old(nextPageScheduled)
      ensures reply.PairOk? ==>
        && stored == Some(reply.uuid) && deviceUUID == Some(reply.uuid)
        && screen == App && polling && alerts == old(alerts)
      ensures !reply.PairOk? ==>
        && alerts == old(alerts) + [PAIRING_FAILED + FailureMessage(reply)]
        && stored == old(stored) && deviceUUID == old(deviceUUID) && screen == Setup
    {
      if reply.PairOk? {
        stored := Some(reply.uuid);
        deviceUUID := Some(reply.uuid);
        screen := App;
        polling := true;
      } else {
        Alert(PAIRING_FAILED + FailureMessage(reply));
      }
    }

    /** `carregarDados` receiving a poll's reply. A failure changes nothing.
        A snapshot updates the title when it has one; it replaces the cache,
        returns to page 0 and renders exactly when its product list differs
        from the cached one (always, when nothing is cached yet). */
    method Load(reply: FetchReply)
      requires Valid() && polling
      modifies this
      ensures Valid()
      ensures stored == old(stored) && deviceUUID == old(deviceUUID) && screen == old(screen)
      ensures polling == old(polling) && alerts == old(alerts)
      ensures reply.FetchFailed? ==>
        && cache == old(cache) && paginaAtual == old(paginaAtual) && titulo == old(titulo)
        && content == old(content) && nextPageScheduled == old(nextPageScheduled)
      ensures reply.Fetched? ==>
        titulo == (if reply.data.config.tituloExibicao != "" then reply.data.config.tituloExibicao else old(titulo))
      ensures reply.Fetched? && old(cache).Some? && old(cache).value.produtos == reply.data.produtos ==>
        && cache == old(cache) && paginaAtual == old(paginaAtual)
        && content == old(content) && nextPageScheduled == old(nextPageScheduled)
      ensures reply.Fetched? && (old(cache).None? || old(cache).value.produtos != reply.data.produtos) ==>
        && cache == Some(reply.data) && paginaAtual == 0
        && (reply.data.produtos == [] ==> content == Waiting && !nextPageScheduled)
        && (reply.data.produtos != [] ==>
              content == PageView(reply.data.produtos, 0)
              && nextPageScheduled == (TotalPages(|reply.data.produtos|) > 1))
    {
      match reply
      case FetchFailed =>
      case Fetched(data) =>
        if data.config.tituloExibicao != "" {
          titulo := data.config.tituloExibicao;
        }
        if cache.None? || cache.value.produtos != data.produtos {
          cache := Some(data);
          paginaAtual := 0;
          Render();
        }
    }

    /** The next-page timer firing: advance the page and render it. With the
        snapshot unchanged the page advances to the next one, wrapping to 0
        after the last. */
    method Step()
      requires Valid() && nextPageScheduled
      modifies this
      ensures Valid()
      ensures stored == old(stored) && deviceUUID == old(deviceUUID) && screen == old(screen)
      ensures polling == old(polling) && alerts == old(alerts) && titulo == old(titulo) && cache == old(cache)
      ensures paginaAtual == NextPage(old(paginaAtual), TotalPages(|cache.value.produtos|))
      ensures content == PageView(cache.value.produtos, paginaAtual) && nextPageScheduled
    {
      paginaAtual := paginaAtual + 1;
      Render();
    }

    /** `renderizarPagina`. With no products it shows the waiting message and
        arms nothing. Otherwise it wraps an index past the last page to 0,
        lays out that page and arms the next-page timer only when there is
        more than one page. */
    method Render()
      requires cache.Some?
      requires (polling <==> screen == App) && (screen == App ==> deviceUUID.Some?)
      modifies this
      ensures Valid()
      ensures stored == old(stored) && deviceUUID == old(deviceUUID) && screen == old(screen)
      ensures polling == old(polling) && alerts == old(alerts) && titulo == old(titulo) && cache == old(cache)
      ensures var produtos := cache.value.produtos;
        && (produtos == [] ==> content == Waiting && !nextPageScheduled && paginaAtual == old(paginaAtual))
        && (produtos != [] ==>
              && paginaAtual == (if old(paginaAtual) >= TotalPages(|produtos|) then 0 else old(paginaAtual))
              && content == PageView(produtos, paginaAtual)
              && nextPageScheduled == (TotalPages(|produtos|) > 1))
    {
      var produtos := cache.value.produtos;
      if |produtos| == 0 {
        content := Waiting;
        nextPageScheduled := false;
        return;
      }
      var totalPaginas := TotalPages(|produtos|);
      if paginaAtual >= totalPaginas {
        paginaAtual := 0;
      }
      var produtosDaPagina := Window(produtos, paginaAtual, ITENS_POR_PAGINA);
      var col1, col2 := SplitColumns(Decorated(produtosDaPagina), ITENS_POR_COLUNA);
      content := Columns(col1, col2);
      nextPageScheduled := totalPaginas > 1;
    }
  }
}
