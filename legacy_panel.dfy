/** The Flask panel's carousel: the product list the `painel` route embeds,
    shown `P` products per page (the configured `produtos_por_pagina`), the
    first `ceil(P/2)` of a page in the left column, turning the page on an
    interval. `P` is whatever integer the configuration holds, so the page
    count follows JavaScript's division: `N/0` is Infinity (NaN when `N` is
    also 0), and a negative `P` gives a count of at most 0. */
module LegacyPanel {
  import opened Paging
  import FlaskApp

  /** `Math.ceil(N / P)` as a JavaScript number. */
  datatype PageCount = Finite(n: int) | Infinite | NotANumber

  /** `Math.ceil(N / P)`. */
  function TotalPages(count: nat, perPage: int): (r: PageCount)
    ensures perPage > 0 ==> r == Finite(CeilDiv(count, perPage))
    ensures perPage == 0 ==> (r.Infinite? <==> count > 0) && (r.NotANumber? <==> count == 0)
    ensures perPage < 0 ==> r.Finite? && r.n <= 0 && r.n * perPage <= count < r.n * perPage - perPage
  {
    if perPage > 0 then Finite(CeilDiv(count, perPage))
    else if perPage == 0 then (if count > 0 then Infinite else NotANumber)
    else
      var q := count / -perPage;
      assert count == q * -perPage + count % -perPage;
      Finite(-q)
  }

  /** `Math.ceil(P / 2)`: the least integer that is at least half of `P`. */
  function ColumnSize(perPage: int): (r: int)
    ensures perPage <= 2 * r < perPage + 2
  {
    if perPage >= 0 then (perPage + 1) / 2 else -((-perPage) / 2)
  }

  /** `totalPaginas > 0`: the start-up guard loads a page. */
  predicate AnyPage(total: PageCount) {
    total.Infinite? || (total.Finite? && total.n > 0)
  }

  /** `totalPaginas > 1`: the rotation interval is set. */
  predicate SeveralPages(total: PageCount) {
    total.Infinite? || (total.Finite? && total.n > 1)
  }

  /** One rendered product and whether it carries the offer class. */
  datatype ItemView = ItemView(item: FlaskApp.PanelItem, emOferta: bool)

  datatype Content = Nothing | NoProducts | Columns(left: seq<ItemView>, right: seq<ItemView>)

  function Decorated(items: seq<FlaskApp.PanelItem>): seq<ItemView> {
    seq(|items|, i requires 0 <= i < |items| => ItemView(items[i], items[i].emOferta))
  }

  function Items(vs: seq<ItemView>): seq<FlaskApp.PanelItem> {
    seq(|vs|, i requires 0 <= i < |vs| => vs[i].item)
  }

  /** Page `p` as `carregarPagina` lays it out, for a page size the start-up
      guard lets through (never negative). */
  function PageView(produtos: seq<FlaskApp.PanelItem>, perPage: nat, p: nat): Content {
    var views := Decorated(Window(produtos, p, perPage));
    var k := Min(ColumnSize(perPage), |views|);
    Columns(views[..k], views[k..])
  }

  /** Page `p` shows exactly `produtos[p*P .. min(N, p*P+P))`; the left
      column gets its first `ceil(P/2)` items and the right one the rest, in
      order; an item carries the offer class exactly when it is on offer. */
  lemma PageViewFacts(produtos: seq<FlaskApp.PanelItem>, perPage: nat, p: nat)
    requires perPage > 0 && p < CeilDiv(|produtos|, perPage)
    ensures p * perPage < |produtos|
    ensures var c := PageView(produtos, perPage, p);
      var page := produtos[p * perPage..Min(|produtos|, p * perPage + perPage)];
      && c.Columns?
      && Items(c.left + c.right) == page
      && |c.left| == Min(ColumnSize(perPage), |page|)
      && (forall v :: v in c.left + c.right ==> (v.emOferta <==> v.item.emOferta))
  {
    var start := p * perPage;
    PageStartInRange(|produtos|, perPage, p);
    var window := Window(produtos, p, perPage);
    assert window == produtos[start..Min(|produtos|, start + perPage)];
    var views := Decorated(window);
    var k := Min(ColumnSize(perPage), |views|);
    assert PageView(produtos, perPage, p) == Columns(views[..k], views[k..]);
    assert views[..k] + views[k..] == views;
    assert Items(views) == window;
  }

  /** With a page size of 0 and some products the count is Infinity, so the
      carousel starts and rotates, but every page it shows is empty. */
  lemma ZeroPageSizeShowsEmptyPages(produtos: seq<FlaskApp.PanelItem>, p: nat)
    requires produtos != []
    ensures AnyPage(TotalPages(|produtos|, 0)) && SeveralPages(TotalPages(|produtos|, 0))
    ensures PageView(produtos, 0, p) == Columns([], [])
  {
  }

  /** With a negative page size the guard shows the no-products message
      whatever the products. */
  lemma NegativePageSizeShowsNoProducts(count: nat, perPage: int)
    requires perPage < 0
    ensures !AnyPage(TotalPages(count, perPage))
  {
  }

  /** The page after `p`: one more, back to 0 once that reaches the count. */
  function Next(p: nat, total: PageCount): (r: nat)
    requires total.Infinite? || (total.Finite? && total.n > 0)
    ensures total.Finite? ==> r == NextPage(p, total.n)
    ensures total.Infinite? ==> r == p + 1
  {
    if total.Finite? && p + 1 >= total.n then 0 else p + 1
  }

  class Panel {
    /** `TODOS_PRODUTOS`. */
    const produtos: seq<FlaskApp.PanelItem>
    /** `PRODUTOS_POR_PAGINA`. */
    const perPage: int
    const totalPaginas: PageCount
    const produtosPorColuna: int
    var paginaAtual: nat
    var content: Content
    /** Whether the rotation interval is set. */
    var rotating: bool

    ghost predicate Valid()
      reads this
    {
      && totalPaginas == TotalPages(|produtos|, perPage)
      && produtosPorColuna == ColumnSize(perPage)
      && (content.Columns? ==> perPage >= 0 && content == PageView(produtos, perPage, paginaAtual))
      && (content.Columns? && totalPaginas.Finite? ==> paginaAtual < totalPaginas.n)
      && (content.Columns? <==> AnyPage(totalPaginas))
      && (content == NoProducts <==> !AnyPage(totalPaginas))
      && (rotating <==> SeveralPages(totalPaginas))
    }

    /** Start-up: page 0 when the count is positive, with the interval set
        when it exceeds 1; the no-products message otherwise. */
    constructor (todos: seq<FlaskApp.PanelItem>, porPagina: int)
      ensures Valid()
      ensures produtos == todos && perPage == porPagina && paginaAtual == 0
      ensures AnyPage(TotalPages(|todos|, porPagina)) ==> content == PageView(todos, porPagina as nat, 0)
      ensures !AnyPage(TotalPages(|todos|, porPagina)) ==> content == NoProducts
      ensures rotating <==> SeveralPages(TotalPages(|todos|, porPagina))
    {
      produtos := todos;
      perPage := porPagina;
      totalPaginas := TotalPages(|todos|, porPagina);
      produtosPorColuna := ColumnSize(porPagina);
      paginaAtual := 0;
      rotating := false;
      content := Nothing;
      new;
      if AnyPage(totalPaginas) {
        CarregarPagina(0);
        rotating := SeveralPages(totalPaginas);
      } else {
        content := NoProducts;
      }
    }

    /** `carregarPagina`: the page's window, decorated, split at `ceil(P/2)`. */
    method CarregarPagina(pagina: nat)
      requires perPage >= 0 && produtosPorColuna == ColumnSize(perPage)
      modifies this
      ensures paginaAtual == old(paginaAtual) && rotating == old(rotating)
      ensures content == PageView(produtos, perPage, pagina)
    {
      var produtosDaPagina := Window(produtos, pagina, perPage);
      var coluna1, coluna2 := SplitColumns(Decorated(produtosDaPagina), produtosPorColuna as nat);
      content := Columns(coluna1, coluna2);
    }

    /** `proximaPagina`, fired by the interval. */
    method ProximaPagina()
      requires Valid() && rotating
      modifies this
      ensures Valid() && rotating
      ensures paginaAtual == Next(old(paginaAtual), totalPaginas)
      ensures content == PageView(produtos, perPage, paginaAtual)
    {
      paginaAtual := paginaAtual + 1;
      if totalPaginas.Finite? && paginaAtual >= totalPaginas.n {
        paginaAtual := 0;
      }
      CarregarPagina(paginaAtual);
    }
  }
}
