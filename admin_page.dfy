/** The admin page script: the live filter over the product table, and the
    table edits that follow the server's replies to add, update and delete,
    each reported in a toast. A network failure and a reply body that is not
    JSON end in the same handler and are both modelled as `Unreachable`. */
module AdminPage {
  import opened Wrappers
  import Strings

  /** A table row: the product's key, its code cell, the current value of
      its name input, its price and flags, and whether it is displayed. */
  datatype Row = Row(id: nat, codigo: string, nome: string, preco: string, noPainel: bool, emOferta: bool, visible: bool)

  /** `data.produto` of a successful add. */
  datatype NewProduct = NewProduct(id: nat, codigo: string, nome: string, preco: string, noPainel: bool, emOferta: bool)

  /** The outcome of a request as the handlers see it. */
  datatype Reply<P> = Unreachable | Answered(success: bool, message: string, produto: Option<P>)

  datatype Toast = Toast(bgClass: string, title: string, message: string)

  const ADD_UNREACHABLE: string := "Erro de conexão ao tentar adicionar."
  const UPDATE_UNREACHABLE: string := "Erro de conexão ao tentar atualizar."
  const DELETE_UNREACHABLE: string := "Erro de conexão ao tentar deletar."

  /** The toast style and title for a category. */
  function AlertStyle(category: string): (r: (string, string))
    ensures category == "success" <==> r == ("text-bg-success", "Sucesso!")
    ensures category != "success" <==> r == ("text-bg-danger", "Erro!")
  {
    if category == "success" then ("text-bg-success", "Sucesso!") else ("text-bg-danger", "Erro!")
  }

  /** A text as the filter compares it: lower case, surrounding whitespace removed. */
  function Key(s: string): string {
    Strings.Trim(Strings.Lower(s))
  }

  /** A key is no longer than its text, has no whitespace at either end and
      no upper-case ASCII letter. */
  lemma KeyShape(s: string)
    ensures |Key(s)| <= |s|
    ensures Key(s) == [] || (!Strings.IsSpace(Key(s)[0]) && !Strings.IsSpace(Key(s)[|Key(s)| - 1]))
    ensures forall k :: 0 <= k < |Key(s)| ==> !('A' <= Key(s)[k] <= 'Z')
  {
    Strings.TrimLower(s);
    Strings.LowerHasNoUpper(Strings.Trim(s));
  }

  /** The filter's test for one row. */
  predicate Matches(row: Row, termCodigo: string, termNome: string) {
    Strings.Contains(Key(row.codigo), Key(termCodigo)) && Strings.Contains(Key(row.nome), Key(termNome))
  }

  /** The table after `aplicarFiltros`: the same rows in the same order,
      each displayed exactly when it matches both terms. */
  function Filtered(rows: seq<Row>, termCodigo: string, termNome: string): (r: seq<Row>)
    ensures |r| == |rows|
    ensures forall i :: 0 <= i < |rows| ==>
      r[i].(visible := rows[i].visible) == rows[i] && (r[i].visible <==> Matches(rows[i], termCodigo, termNome))
  {
    seq(|rows|, i requires 0 <= i < |rows| => rows[i].(visible := Matches(rows[i], termCodigo, termNome)))
  }

  /** A row is displayed exactly when its code contains the code term and
      its name contains the name term, both compared in lower case with
      surrounding whitespace removed. */
  lemma VisibleIff(rows: seq<Row>, termCodigo: string, termNome: string, i: nat)
    requires i < |rows|
    ensures Filtered(rows, termCodigo, termNome)[i].visible <==>
      (exists k :: Strings.OccursAt(Key(rows[i].codigo), Key(termCodigo), k))
      && (exists k :: Strings.OccursAt(Key(rows[i].nome), Key(termNome), k))
  {
    Strings.ContainsIff(Key(rows[i].codigo), Key(termCodigo));
    Strings.ContainsIff(Key(rows[i].nome), Key(termNome));
  }

  /** Filtering again with the same terms changes nothing. */
  lemma FilterIdempotent(rows: seq<Row>, termCodigo: string, termNome: string)
    ensures Filtered(Filtered(rows, termCodigo, termNome), termCodigo, termNome) == Filtered(rows, termCodigo, termNome)
  {
    var once := Filtered(rows, termCodigo, termNome);
    var twice := Filtered(once, termCodigo, termNome);
    forall i | 0 <= i < |rows|
      ensures twice[i] == once[i]
    {
      assert once[i].(visible := rows[i].visible) == rows[i];
      assert Matches(once[i], termCodigo, termNome) == Matches(rows[i], termCodigo, termNome);
    }
  }

  /** Empty (or blank) terms display every row. */
  lemma BlankTermsShowAll(rows: seq<Row>, termCodigo: string, termNome: string)
    requires Key(termCodigo) == [] && Key(termNome) == []
    ensures forall r :: r in Filtered(rows, termCodigo, termNome) ==> r.visible
  {
    forall i | 0 <= i < |rows|
      ensures Filtered(rows, termCodigo, termNome)[i].visible
    {
      Strings.ContainsEmpty(Key(rows[i].codigo));
      Strings.ContainsEmpty(Key(rows[i].nome));
    }
  }

  /** The row `createNewTableRow` builds; nothing hides it. */
  function NewRow(p: NewProduct): Row {
    Row(p.id, p.codigo, p.nome, p.preco, p.noPainel, p.emOferta, true)
  }

  class Page {
    /** The rows of the table body, top to bottom. */
    var rows: seq<Row>
    /** Whether the page has a toast container; without one no toast is shown. */
    const hasToastContainer: bool
    var toasts: seq<Toast>
    /** The add form's field values as the page delivers them, which
        resetting the form restores. */
    const initialForm: map<string, string>
    /** The add form's field values. What the user types between load and
        submit is not modelled, so `addForm` records only the reset. */
    var addForm: map<string, string>

    constructor (initial: seq<Row>, toastContainer: bool, form: map<string, string>)
      ensures rows == initial && hasToastContainer == toastContainer && toasts == []
      ensures initialForm == form && addForm == form
    {
      rows := initial;
      hasToastContainer := toastContainer;
      toasts := [];
      initialForm := form;
      addForm := form;
    }

    /** The toasts `showAjaxAlert` adds. */
    function ToastFor(message: string, category: string): (r: seq<Toast>)
      ensures !hasToastContainer ==> r == []
      ensures hasToastContainer ==> r == [Toast(AlertStyle(category).0, AlertStyle(category).1, message)]
    {
      if hasToastContainer then [Toast(AlertStyle(category).0, AlertStyle(category).1, message)] else []
    }

    method ShowAjaxAlert(message: string, category: string)
      modifies this
      ensures rows == old(rows) && addForm == old(addForm)
      ensures toasts == old(toasts) + ToastFor(message, category)
    {
      if !hasToastContainer {
        return;
      }
      var style := AlertStyle(category);
      toasts := toasts + [Toast(style.0, style.1, message)];
    }

    /** `aplicarFiltros`: set each row's display from the two terms. */
    method AplicarFiltros(termCodigo: string, termNome: string)
      modifies this
      ensures rows == Filtered(old(rows), termCodigo, termNome)
      ensures toasts == old(toasts) && addForm == old(addForm)
    {
      var linhas := rows;
      var i := 0;
      while i < |linhas|
        invariant 0 <= i <= |linhas| == |old(rows)|
        invariant forall k :: 0 <= k < i ==> linhas[k] == old(rows)[k].(visible := Matches(old(rows)[k], termCodigo, termNome))
        invariant forall k :: i <= k < |linhas| ==> linhas[k] == old(rows)[k]
      {
        var linha := linhas[i];
        var visivel := Matches(linha, termCodigo, termNome);
        linhas := linhas[i := linha.(visible := visivel)];
        i := i + 1;
      }
      rows := linhas;
    }

    /** The add form's submit handler. A successful reply shows its message,
        puts the new product's row at the top and resets the form to its
        initial values; a refused
        one shows its message as an error; an unreachable server shows the
        connection error. Only a successful reply changes the table, by
        exactly one row at the front. */
    method SubmitAdd(reply: Reply<NewProduct>)
      modifies this
      ensures reply.Unreachable? ==>
        rows == old(rows) && addForm == old(addForm) && toasts == old(toasts) + ToastFor(ADD_UNREACHABLE, "error")
      ensures reply.Answered? && !reply.success ==>
        rows == old(rows) && addForm == old(addForm) && toasts == old(toasts) + ToastFor(reply.message, "error")
      ensures reply.Answered? && reply.success && reply.produto.Some? ==>
        && rows == [NewRow(reply.produto.value)] + old(rows)
        && addForm == initialForm
        && toasts == old(toasts) + ToastFor(reply.message, "success")
      ensures reply.Answered? && reply.success && reply.produto.None? ==>
        && rows == old(rows) && addForm == old(addForm)
        && toasts == old(toasts) + ToastFor(reply.message, "success") + ToastFor(ADD_UNREACHABLE, "error")
    {
      match reply
      case Unreachable =>
        ShowAjaxAlert(ADD_UNREACHABLE, "error");
      case Answered(success, message, produto) =>
        if success {
          ShowAjaxAlert(message, "success");
          if produto.None? {
            // building the row from a missing product throws into the catch
            ShowAjaxAlert(ADD_UNREACHABLE, "error");
            return;
          }
          rows := [NewRow(produto.value)] + rows;
          addForm := initialForm;
        } else {
          ShowAjaxAlert(message, "error");
        }
    }

    /** A row's update form: only a toast reports the outcome. */
    method SubmitUpdate(reply: Reply<NewProduct>)
      modifies this
      ensures rows == old(rows) && addForm == old(addForm)
      ensures reply.Unreachable? ==> toasts == old(toasts) + ToastFor(UPDATE_UNREACHABLE, "error")
      ensures reply.Answered? ==>
        toasts == old(toasts) + ToastFor(reply.message, if reply.success then "success" else "error")
    {
      match reply
      case Unreachable =>
        ShowAjaxAlert(UPDATE_UNREACHABLE, "error");
      case Answered(success, message, _) =>
        ShowAjaxAlert(message, if success then "success" else "error");
    }

    /** The delete button of row `index`. Without confirmation nothing
        happens; the row goes only when the server reports success. */
    method ClickDelete(index: nat, confirmed: bool, reply: Reply<NewProduct>)
      requires index < |rows|
      modifies this
      ensures addForm == old(addForm)
      ensures !confirmed ==> rows == old(rows) && toasts == old(toasts)
      ensures confirmed && reply.Unreachable? ==>
        rows == old(rows) && toasts == old(toasts) + ToastFor(DELETE_UNREACHABLE, "error")
      ensures confirmed && reply.Answered? && !reply.success ==>
        rows == old(rows) && toasts == old(toasts) + ToastFor(reply.message, "error")
      ensures confirmed && reply.Answered? && reply.success ==>
        && rows == old(rows)[..index] + old(rows)[index + 1..]
        && toasts == old(toasts) + ToastFor(reply.message, "success")
      ensures |rows| < |old(rows)| <==> confirmed && reply.Answered? && reply.success
    {
      if !confirmed {
        return;
      }
      match reply
      case Unreachable =>
        ShowAjaxAlert(DELETE_UNREACHABLE, "error");
      case Answered(success, message, _) =>
        if success {
          ShowAjaxAlert(message, "success");
          rows := rows[..index] + rows[index + 1..];
        } else {
          ShowAjaxAlert(message, "error");
        }
    }
  }
}
