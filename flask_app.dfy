/** The Flask price panel: the product table with its unique codes, the
    admin form handlers (add, configure, update, delete) and the panel
    listing, over an in-memory copy of the two database tables. */
module FlaskApp {
  import opened Wrappers
  import opened Sorting

  /** A `produto` row. `preco` is the float column, taken as a real number. */
  datatype Produto = Produto(id: nat, codigo: string, nome: string, preco: real, noPainel: bool, emOferta: bool)

  /** A posted form: field name to value. */
  type Form = map<string, string>

  datatype Flash = Flash(message: string, category: string)

  /** What a handler answers. */
  datatype Reply =
    | JsonReply(status: int, success: bool, message: string, produto: Option<Produto>)
    | Redirect(flashes: seq<Flash>)
    | AdminListing(produtos: seq<Produto>, config: Option<int>)
    | PanelPage(itens: seq<PanelItem>, produtosPorPagina: int)
    | Abort(status: int)                 // an error page: a 404 from the lookup, or a 500 from an uncaught exception

  /** One entry of the panel's product list. */
  datatype PanelItem = PanelItem(nome: string, preco: real, emOferta: bool)

  const DUPLICATE_CODE: string := "Erro: Já existe um produto com esse código!"
  const INVALID_PRICE: string := "Erro: Preço inválido."
  const ADDED: string := "Produto adicionado com sucesso!"
  /** The replies to a failed save, update or delete start with these; the
      exception's text follows. */
  const SAVE_FAILED: string := "Erro ao salvar: "
  const UPDATE_FAILED: string := "Erro ao atualizar: "
  const DELETE_FAILED: string := "Erro ao deletar: "
  const UPDATED: string := "Produto atualizado!"
  const DELETED: string := "Produto deletado."
  const CONFIG_SAVED: string := "Configurações salvas!"
  const INVALID_PER_PAGE: string := "Erro: Número de produtos por página inválido."
  const DEFAULT_PER_PAGE: int := 10

  /** `preco_str.replace(',', '.')`: a decimal comma becomes a point. */
  function ReplaceComma(s: string): (r: string)
    ensures |r| == |s| && ',' !in r
    ensures forall i :: 0 <= i < |s| && s[i] != ',' ==> r[i] == s[i]
    ensures forall i :: 0 <= i < |s| && s[i] == ',' ==> r[i] == '.'
  {
    seq(|s|, i requires 0 <= i < |s| => if s[i] == ',' then '.' else s[i])
  }

  /** Replacing twice is replacing once, and a text without commas is left as it is. */
  lemma ReplaceCommaIdempotent(s: string)
    ensures ReplaceComma(ReplaceComma(s)) == ReplaceComma(s)
    ensures ',' !in s ==> ReplaceComma(s) == s
  {
  }

  /** Row keys grow with the row order and start at 1. */
  predicate IdsIncreasing(produtos: seq<Produto>) {
    && (forall i :: 0 <= i < |produtos| ==> produtos[i].id >= 1)
    && (forall i, j :: 0 <= i < j < |produtos| ==> produtos[i].id < produtos[j].id)
  }

  /** The `unique=True` constraint on `codigo`. */
  predicate CodesUnique(produtos: seq<Produto>) {
    forall i, j :: 0 <= i < j < |produtos| ==> produtos[i].codigo != produtos[j].codigo
  }

  /** `Produto.query.filter_by(codigo=codigo).first()` finds a row. */
  predicate CodigoTaken(produtos: seq<Produto>, codigo: string) {
    exists i :: 0 <= i < |produtos| && produtos[i].codigo == codigo
  }

  /** The key SQLite gives a new row: one more than the largest, or 1. */
  function NewId(produtos: seq<Produto>): (r: nat)
    requires IdsIncreasing(produtos)
    ensures r >= 1
    ensures forall i :: 0 <= i < |produtos| ==> produtos[i].id < r
  {
    if produtos == [] then 1 else produtos[|produtos| - 1].id + 1
  }

  /** The position of the row with key `id`, if any. */
  function IndexOf(produtos: seq<Produto>, id: nat): (r: Option<nat>)
    ensures r.Some? ==> r.value < |produtos| && produtos[r.value].id == id
    ensures r.None? <==> forall i :: 0 <= i < |produtos| ==> produtos[i].id != id
  {
    if produtos == [] then None
    else if produtos[|produtos| - 1].id == id then Some(|produtos| - 1)
    else IndexOf(produtos[..|produtos| - 1], id)
  }

  /** Removing a row keeps the keys increasing and the codes unique, and
      every remaining row was there before. */
  lemma RemovePreservesTable(produtos: seq<Produto>, i: nat)
    requires i < |produtos| && IdsIncreasing(produtos) && CodesUnique(produtos)
    ensures var rest := produtos[..i] + produtos[i + 1..];
      && IdsIncreasing(rest) && CodesUnique(rest)
      && forall k :: 0 <= k < |rest| ==> rest[k] == produtos[if k < i then k else k + 1]
  {
    var rest := produtos[..i] + produtos[i + 1..];
    assert forall k :: 0 <= k < |rest| ==> rest[k] == produtos[if k < i then k else k + 1];
  }

  /** `ORDER BY nome`: code-point order on the names, shorter first on a common prefix. */
  predicate NameLe(a: string, b: string)
    decreases |a|
  {
    a == [] || (b != [] && (a[0] < b[0] || (a[0] == b[0] && NameLe(a[1..], b[1..]))))
  }

  lemma {:induction false} NameLeTotal(a: string, b: string)
    ensures NameLe(a, b) || NameLe(b, a)
    decreases |a|
  {
    if a != [] && b != [] && a[0] == b[0] {
      NameLeTotal(a[1..], b[1..]);
    }
  }

  function ByNome(x: Produto, y: Produto): bool {
    NameLe(x.nome, y.nome)
  }

  lemma ByNomeTotal()
    ensures Total(ByNome)
  {
    forall x: Produto, y: Produto
      ensures ByNome(x, y) || ByNome(y, x)
    {
      NameLeTotal(x.nome, y.nome);
    }
  }

  function OnPanel(p: Produto): bool {
    p.noPainel
  }

  /** The dictionary `painel` builds for a row. */
  function Project(p: Produto): PanelItem {
    PanelItem(p.nome, p.preco, p.emOferta)
  }

  function ProjectAll(ps: seq<Produto>): seq<PanelItem> {
    seq(|ps|, i requires 0 <= i < |ps| => Project(ps[i]))
  }

  /** The rows the panel query returns, in its order. */
  function PanelRows(produtos: seq<Produto>): seq<Produto> {
    SortBy(Filter(produtos, OnPanel), ByNome)
  }

  /** The panel lists exactly the rows shown on the panel, each once, in
      name order, each as its name, price and offer flag. */
  lemma PanelListing(produtos: seq<Produto>)
    ensures var rows := PanelRows(produtos); var itens := ProjectAll(rows);
      && |itens| == |Filter(produtos, OnPanel)|
      && multiset(rows) == multiset(Filter(produtos, OnPanel))
      && (forall p :: p in rows <==> p in produtos && p.noPainel)
      && (forall i :: 0 < i < |itens| ==> NameLe(itens[i - 1].nome, itens[i].nome))
      && (forall i :: 0 <= i < |itens| ==> itens[i] == Project(rows[i]))
  {
    var rows := PanelRows(produtos);
    ByNomeTotal();
    SortBySorted(Filter(produtos, OnPanel), ByNome);
    forall p
      ensures p in rows <==> p in produtos && p.noPainel
    {
      FilterMember(produtos, OnPanel, p);
      assert p in rows <==> p in multiset(rows);
    }
  }

  class Store {
    /** The `produto` table in key order. */
    var produtos: seq<Produto>
    /** `produtos_por_pagina` of the first `configuracao` row, when there is one. */
    var config: Option<int>

    ghost predicate Valid()
      reads this
    {
      IdsIncreasing(produtos) && CodesUnique(produtos)
    }

    constructor (initialConfig: Option<int>)
      ensures Valid() && produtos == [] && config == initialConfig
    {
      produtos := [];
      config := initialConfig;
    }

    /** `admin`. A POST of the add form needs a `preco` field (without it the
        handler raises); a code already in use gives 400; a price that does
        not parse after the comma replacement gives 400; a missing code or
        name makes the commit fail (500, rolled back); otherwise one row is
        appended with the next key, shown on the panel and not on offer (201).
        A POST of the config form stores the parsed count (default 10) or
        flashes the parse error, and redirects; with no config row the
        assignment raises. Anything else lists every row by name. */
    method Admin(isPost: bool, form: Form, parsePrice: string -> Option<real>, parseInt: string -> Option<int>)
      returns (reply: Reply)
      requires Valid()
      modifies this
      ensures Valid()
      ensures var isAdd := isPost && "form_name" in form && form["form_name"] == "add_produto";
        && (isAdd && "preco" !in form ==>
              reply == Abort(500) && produtos == old(produtos) && config == old(config))
        && (isAdd && "preco" in form && "codigo" in form && CodigoTaken(old(produtos), form["codigo"]) ==>
              reply == JsonReply(400, false, DUPLICATE_CODE, None) && produtos == old(produtos) && config == old(config))
        && (isAdd && "preco" in form && !("codigo" in form && CodigoTaken(old(produtos), form["codigo"]))
              && parsePrice(ReplaceComma(form["preco"])).None? ==>
              reply == JsonReply(400, false, INVALID_PRICE, None) && produtos == old(produtos) && config == old(config))
        && (isAdd && "preco" in form && !("codigo" in form && CodigoTaken(old(produtos), form["codigo"]))
              && parsePrice(ReplaceComma(form["preco"])).Some? && ("codigo" !in form || "nome" !in form) ==>
              reply == JsonReply(500, false, SAVE_FAILED, None) && produtos == old(produtos) && config == old(config))
        && (isAdd && "preco" in form && "codigo" in form && "nome" in form && !CodigoTaken(old(produtos), form["codigo"])
              && parsePrice(ReplaceComma(form["preco"])).Some? ==>
              var novo := Produto(NewId(old(produtos)), form["codigo"], form["nome"],
                                  parsePrice(ReplaceComma(form["preco"])).value, true, false);
              && produtos == old(produtos) + [novo] && config == old(config)
              && reply == JsonReply(201, true, ADDED, Some(novo)))
      ensures var isConfig := isPost && "form_name" in form && form["form_name"] == "config";
        var count := if "produtos_por_pagina" in form then parseInt(form["produtos_por_pagina"]) else Some(DEFAULT_PER_PAGE);
        && (isConfig ==> produtos == old(produtos))
        && (isConfig && count.None? ==>
              reply == Redirect([Flash(INVALID_PER_PAGE, "error")]) && config == old(config))
        && (isConfig && count.Some? && old(config).None? ==> reply == Abort(500) && config == old(config))
        && (isConfig && count.Some? && old(config).Some? ==>
              reply == Redirect([Flash(CONFIG_SAVED, "success")]) && config == count)
      ensures !(isPost && "form_name" in form && form["form_name"] in {"add_produto", "config"}) ==>
        && reply == AdminListing(SortBy(old(produtos), ByNome), old(config))
        && produtos == old(produtos) && config == old(config)
    {
      var formName := if "form_name" in form then Some(form["form_name"]) else None;
      if isPost && formName == Some("add_produto") {
        if "preco" !in form {
          return Abort(500);
        }
        var precoStr := ReplaceComma(form["preco"]);
        if "codigo" in form && CodigoTaken(produtos, form["codigo"]) {
          return JsonReply(400, false, DUPLICATE_CODE, None);
        }
        var preco := parsePrice(precoStr);
        if preco.None? {
          return JsonReply(400, false, INVALID_PRICE, None);
        }
        if "codigo" !in form || "nome" !in form {
          return JsonReply(500, false, SAVE_FAILED, None);
        }
        var novo := Produto(NewId(produtos), form["codigo"], form["nome"], preco.value, true, false);
        produtos := produtos + [novo];
        return JsonReply(201, true, ADDED, Some(novo));
      } else if isPost && formName == Some("config") {
        var count := if "produtos_por_pagina" in form then parseInt(form["produtos_por_pagina"]) else Some(DEFAULT_PER_PAGE);
        if count.None? {
          return Redirect([Flash(INVALID_PER_PAGE, "error")]);
        }
        if config.None? {
          return Abort(500);
        }
        config := count;
        return Redirect([Flash(CONFIG_SAVED, "success")]);
      }
      reply := AdminListing(SortBy(produtos, ByNome), config);
    }

    /** `update_produto`. An unknown key gives the 404 page. A missing name
        or price, or a price that does not parse, fails (500) and rolls back.
        Otherwise the row takes the new name and price, and each flag becomes
        whether its checkbox field was posted at all. */
    method UpdateProduto(id: nat, form: Form, parsePrice: string -> Option<real>) returns (reply: Reply)
      requires Valid()
      modifies this
      ensures Valid() && config == old(config)
      ensures IndexOf(old(produtos), id).None? ==> reply == Abort(404) && produtos == old(produtos)
      ensures (IndexOf(old(produtos), id).Some? &&
        ("nome" !in form || "preco" !in form || parsePrice(ReplaceComma(form["preco"])).None?)) ==>
        reply == JsonReply(500, false, UPDATE_FAILED, None) && produtos == old(produtos)
      ensures (IndexOf(old(produtos), id).Some? && "nome" in form && "preco" in form
        && parsePrice(ReplaceComma(form["preco"])).Some?) ==>
        var i := IndexOf(old(produtos), id).value;
        && produtos == old(produtos)[i := old(produtos)[i].(
             nome := form["nome"], preco := parsePrice(ReplaceComma(form["preco"])).value,
             noPainel := "no_painel" in form, emOferta := "em_oferta" in form)]
        && reply == JsonReply(200, true, UPDATED, None)
    {
      var index := IndexOf(produtos, id);
      if index.None? {
        return Abort(404);
      }
      if "nome" !in form || "preco" !in form {
        return JsonReply(500, false, UPDATE_FAILED, None);
      }
      var preco := parsePrice(ReplaceComma(form["preco"]));
      if preco.None? {
        return JsonReply(500, false, UPDATE_FAILED, None);
      }
      var i := index.value;
      produtos := produtos[i := produtos[i].(nome := form["nome"], preco := preco.value,
                                             noPainel := "no_painel" in form, emOferta := "em_oferta" in form)];
      reply := JsonReply(200, true, UPDATED, None);
    }

    /** `delete_produto`. The lookup sits inside the handler's catch-all, so
        an unknown key is answered as a failed delete (500), not with 404.
        A known key removes exactly that row. */
    method DeleteProduto(id: nat) returns (reply: Reply)
      requires Valid()
      modifies this
      ensures Valid() && config == old(config)
      ensures IndexOf(old(produtos), id).None? ==>
        reply == JsonReply(500, false, DELETE_FAILED, None) && produtos == old(produtos)
      ensures IndexOf(old(produtos), id).Some? ==>
        var i := IndexOf(old(produtos), id).value;
        && produtos == old(produtos)[..i] + old(produtos)[i + 1..]
        && reply == JsonReply(200, true, DELETED, None)
      ensures forall p :: p in produtos ==> p in old(produtos) && p.id != id
    {
      var index := IndexOf(produtos, id);
      if index.None? {
        return JsonReply(500, false, DELETE_FAILED, None);
      }
      var i := index.value;
      RemovePreservesTable(produtos, i);
      assert forall k :: 0 <= k < |produtos| && k != i ==> produtos[k].id != id;
      produtos := produtos[..i] + produtos[i + 1..];
      reply := JsonReply(200, true, DELETED, None);
    }

    /** `painel`: the rows shown on the panel, by name, each projected to its
        name, price and offer flag, with the configured page size; without a
        config row the handler raises. */
    method Painel() returns (reply: Reply)
      ensures config.None? ==> reply == Abort(500)
      ensures config.Some? ==> reply == PanelPage(ProjectAll(PanelRows(produtos)), config.value)
    {
      if config.None? {
        return Abort(500);
      }
      var ativos := PanelRows(produtos);
      var lista: seq<PanelItem> := [];
      var i := 0;
      while i < |ativos|
        invariant 0 <= i <= |ativos|
        invariant |lista| == i
        invariant forall k :: 0 <= k < i ==> lista[k] == Project(ativos[k])
      {
        lista := lista + [Project(ativos[i])];
        i := i + 1;
      }
      reply := PanelPage(lista, config.value);
    }
  }
}
