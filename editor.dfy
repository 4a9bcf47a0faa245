/** The visual template editor: choosing the product shown as a sample, and
    saving a layout posted as JSON onto a video template. */
module Editor {
  import opened Wrappers

  /** A parsed JSON value. */
  datatype Json =
    | JNull
    | JBool(b: bool)
    | JNum(n: real)
    | JStr(s: string)
    | JArray(items: seq<Json>)
    | JObject(fields: map<string, Json>)

  /** A stored video template: its integer coordinate columns and the other
      columns, which the layout save never writes. */
  datatype Template = Template(
    nome: string, arquivoVideo: string,
    tituloTop: int, tituloLeft: int, tituloCor: string, tituloTamanho: string,
    precoTop: int, precoLeft: int, precoCor: string, precoTamanho: string,
    imgTop: int, imgLeft: int, imgWidth: int)

  /** The template object after the assignments: the columns, plus the two
      attributes `estilos_css` and `elementos_extras`, which the template
      model declares no column for. */
  datatype Layout = Layout(template: Template, estilosCss: Json, elementosExtras: Json)

  const OK: int := 200
  const BAD_REQUEST: int := 400
  const NOT_FOUND: int := 404
  const SERVER_ERROR: int := 500

  /** `data.get(key, default)`. */
  function Get(data: map<string, Json>, key: string, default: Json): Json {
    if key in data then data[key] else default
  }

  /** The integer an integer column receives from an assigned value when the
      row is saved: null violates the column's NOT NULL constraint, and any
      other value goes through the integer conversion `toInt`, which may fail. */
  function Column(v: Json, toInt: Json -> Option<int>): Option<int> {
    if v.JNull? then None else toInt(v)
  }

  /** `data.get('imagem_config', {})` when it is a dictionary; any other value
      makes the following `.get` calls raise. */
  function ImageConfig(data: map<string, Json>): Option<map<string, Json>> {
    var v := Get(data, "imagem_config", JObject(map[]));
    if v.JObject? then Some(v.fields) else None
  }

  /** `img_data.get(key, current)` as the column stores it. */
  function FromImage(img: map<string, Json>, key: string, current: int, toInt: Json -> Option<int>): (r: Option<int>)
    ensures key !in img ==> r == Some(current)
  {
    if key in img then Column(img[key], toInt) else Some(current)
  }

  /** Whether the save of `salvar_layout` goes through: each title and price
      coordinate converts, `imagem_config` is a dictionary, and each image
      coordinate it carries converts. */
  predicate Saveable(data: map<string, Json>, toInt: Json -> Option<int>) {
    && Column(Get(data, "titulo_top", JNull), toInt).Some?
    && Column(Get(data, "titulo_left", JNull), toInt).Some?
    && Column(Get(data, "preco_top", JNull), toInt).Some?
    && Column(Get(data, "preco_left", JNull), toInt).Some?
    && ImageConfig(data).Some?
    && ("top" in ImageConfig(data).value ==> Column(ImageConfig(data).value["top"], toInt).Some?)
    && ("left" in ImageConfig(data).value ==> Column(ImageConfig(data).value["left"], toInt).Some?)
    && ("width" in ImageConfig(data).value ==> Column(ImageConfig(data).value["width"], toInt).Some?)
  }

  /** The assignments of `salvar_layout` followed by the save: the title and
      price coordinates come from the payload (null when absent), the image
      coordinates from `imagem_config` falling back to the current values,
      and the two style attributes default to `{}` and `[]`. `None` when a
      step raises. */
  function PatchLayout(t: Template, data: map<string, Json>, toInt: Json -> Option<int>): (r: Option<Layout>)
    ensures r.Some? ==>
      var n := r.value.template;
      && n.nome == t.nome && n.arquivoVideo == t.arquivoVideo
      && n.tituloCor == t.tituloCor && n.tituloTamanho == t.tituloTamanho
      && n.precoCor == t.precoCor && n.precoTamanho == t.precoTamanho
    ensures r.Some? ==>
      var n := r.value.template;
      && Column(Get(data, "titulo_top", JNull), toInt) == Some(n.tituloTop)
      && Column(Get(data, "titulo_left", JNull), toInt) == Some(n.tituloLeft)
      && Column(Get(data, "preco_top", JNull), toInt) == Some(n.precoTop)
      && Column(Get(data, "preco_left", JNull), toInt) == Some(n.precoLeft)
    ensures r.Some? ==>
      var n := r.value.template;
      && ImageConfig(data).Some?
      && ("top" !in ImageConfig(data).value ==> n.imgTop == t.imgTop)
      && ("left" !in ImageConfig(data).value ==> n.imgLeft == t.imgLeft)
      && ("width" !in ImageConfig(data).value ==> n.imgWidth == t.imgWidth)
      && ("top" in ImageConfig(data).value ==> Column(ImageConfig(data).value["top"], toInt) == Some(n.imgTop))
      && ("left" in ImageConfig(data).value ==> Column(ImageConfig(data).value["left"], toInt) == Some(n.imgLeft))
      && ("width" in ImageConfig(data).value ==> Column(ImageConfig(data).value["width"], toInt) == Some(n.imgWidth))
    ensures r.Some? ==>
      && r.value.estilosCss == Get(data, "estilos_css", JObject(map[]))
      && r.value.elementosExtras == Get(data, "elementos_extras", JArray([]))
    ensures r.Some? <==> Saveable(data, toInt)
    ensures "titulo_top" !in data ==> r.None?
    ensures ImageConfig(data).None? ==> r.None?
  {
    var tituloTop := Column(Get(data, "titulo_top", JNull), toInt);
    var tituloLeft := Column(Get(data, "titulo_left", JNull), toInt);
    var precoTop := Column(Get(data, "preco_top", JNull), toInt);
    var precoLeft := Column(Get(data, "preco_left", JNull), toInt);
    match ImageConfig(data)
    case None => None
    case Some(img) =>
      var imgTop := FromImage(img, "top", t.imgTop, toInt);
      var imgLeft := FromImage(img, "left", t.imgLeft, toInt);
      var imgWidth := FromImage(img, "width", t.imgWidth, toInt);
      if tituloTop.None? || tituloLeft.None? || precoTop.None? || precoLeft.None?
         || imgTop.None? || imgLeft.None? || imgWidth.None?
      then None
      else
        var n := t.(tituloTop := tituloTop.value, tituloLeft := tituloLeft.value,
                    precoTop := precoTop.value, precoLeft := precoLeft.value,
                    imgTop := imgTop.value, imgLeft := imgLeft.value, imgWidth := imgWidth.value);
        Some(Layout(n, Get(data, "estilos_css", JObject(map[])), Get(data, "elementos_extras", JArray([]))))
  }

  /** Saving the same layout twice stores what saving it once does. */
  lemma PatchLayoutIdempotent(t: Template, data: map<string, Json>, toInt: Json -> Option<int>)
    requires PatchLayout(t, data, toInt).Some?
    ensures PatchLayout(PatchLayout(t, data, toInt).value.template, data, toInt) == PatchLayout(t, data, toInt)
  {
  }

  /** The layout a request body gives: it must have parsed (`None` is a body
      `json.loads` rejects) and be a JSON object, or the handler raises. */
  function BodyLayout(t: Template, body: Option<Json>, toInt: Json -> Option<int>): Option<Layout> {
    if body.Some? && body.value.JObject? then PatchLayout(t, body.value.fields, toInt) else None
  }

  /** The video templates, by primary key. */
  class TemplateStore {
    var templates: map<int, Template>

    constructor (initial: map<int, Template>)
      ensures templates == initial
    {
      templates := initial;
    }

    /** `salvar_layout`. Only a POST is served (400 otherwise); the template
        must exist (404); a body that does not parse, is not an object, or
        whose values the columns refuse fails with 500 and stores nothing.
        Otherwise the patched columns replace the template's and no other
        template changes. */
    method SalvarLayout(isPost: bool, id: int, body: Option<Json>, toInt: Json -> Option<int>) returns (status: int)
      modifies this
      ensures !isPost ==> status == BAD_REQUEST && templates == old(templates)
      ensures isPost && id !in old(templates) ==> status == NOT_FOUND && templates == old(templates)
      ensures isPost && id in old(templates) && BodyLayout(old(templates)[id], body, toInt).None? ==>
        status == SERVER_ERROR && templates == old(templates)
      ensures isPost && id in old(templates) && body.Some? && body.value.JObject? && Saveable(body.value.fields, toInt) ==>
        status == OK
      ensures isPost && id in old(templates) && BodyLayout(old(templates)[id], body, toInt).Some? ==>
        && status == OK
        && templates == old(templates)[id := BodyLayout(old(templates)[id], body, toInt).value.template]
    {
      if !isPost {
        return BAD_REQUEST;
      }
      if id !in templates {
        return NOT_FOUND;
      }
      var layout := BodyLayout(templates[id], body, toInt);
      if layout.None? {
        return SERVER_ERROR;
      }
      templates := templates[id := layout.value.template];
      status := OK;
    }
  }

  /** A product as the editor reads it; `template` is its video template's key. */
  datatype ProdutoRow = ProdutoRow(codigo: string, descricao: string, preco: real, imagem: Option<string>, template: Option<int>)

  /** The product the editor previews: a real one, or the stand-in. */
  datatype Sample = RealProduct(produto: ProdutoRow) | Dummy(descricao: string, preco: real, imagem: Option<string>)

  const DUMMY_DESCRICAO: string := "NOME DO PRODUTO (MODELO)"

  predicate UsesTemplateAt(produtos: seq<ProdutoRow>, i: int, templateId: int) {
    0 <= i < |produtos| && produtos[i].template == Some(templateId)
  }

  /** `editor_visual`'s choice, over the products in the query's order (the
      model orders them by `descricao`): the first product that uses the
      template, or the stand-in without image and at price 0 when none does. */
  function SampleProduct(produtos: seq<ProdutoRow>, templateId: int): (r: Sample)
    ensures r.RealProduct? <==> exists i :: UsesTemplateAt(produtos, i, templateId)
    ensures r.RealProduct? ==> exists i :: (UsesTemplateAt(produtos, i, templateId) && produtos[i] == r.produto
      && forall j :: 0 <= j < i ==> !UsesTemplateAt(produtos, j, templateId))
    ensures r.Dummy? ==> r == Dummy(DUMMY_DESCRICAO, 0.0, None)
  {
    if produtos == [] then Dummy(DUMMY_DESCRICAO, 0.0, None)
    else if produtos[0].template == Some(templateId) then
      assert UsesTemplateAt(produtos, 0, templateId);
      RealProduct(produtos[0])
    else
      var r := SampleProduct(produtos[1..], templateId);
      assert forall i :: UsesTemplateAt(produtos[1..], i, templateId) <==> UsesTemplateAt(produtos, i + 1, templateId);
      if r.RealProduct? then
        var i :| UsesTemplateAt(produtos[1..], i, templateId) && produtos[1..][i] == r.produto
          && forall j :: 0 <= j < i ==> !UsesTemplateAt(produtos[1..], j, templateId);
        assert UsesTemplateAt(produtos, i + 1, templateId);
        forall j | 0 <= j < i + 1
          ensures !UsesTemplateAt(produtos, j, templateId)
        {
          if j > 0 {
            assert !UsesTemplateAt(produtos[1..], j - 1, templateId);
          }
        }
        r
      else
        assert forall i :: UsesTemplateAt(produtos, i, templateId) ==> UsesTemplateAt(produtos[1..], i - 1, templateId);
        r
  }

  /** What the editor page receives. */
  datatype EditorContext = EditorContext(template: Template, produto: Sample)

  /** `editor_visual`: 404 for an unknown template; otherwise the template and its sample. */
  function EditorVisual(templates: map<int, Template>, produtos: seq<ProdutoRow>, id: int): (r: Result<EditorContext, int>)
    ensures id !in templates <==> r == Failure(NOT_FOUND)
    ensures r.Success? ==> r.value.template == templates[id]
    ensures r.Success? ==> r.value.produto == SampleProduct(produtos, id)
    ensures r.Success? ==> (r.value.produto.RealProduct? <==> exists i :: UsesTemplateAt(produtos, i, id))
  {
    if id !in templates then Failure(NOT_FOUND)
    else Success(EditorContext(templates[id], SampleProduct(produtos, id)))
  }
}
