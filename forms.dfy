/** The product-import form: only an Excel workbook is accepted. */
module Forms {
  import opened Wrappers
  import Strings

  const EXCEL_SUFFIX: string := ".xlsx"
  const EXCEL_ERROR: string := "O arquivo deve ser um Excel (.xlsx)"

  /** An uploaded file: its client-side name and its bytes. */
  datatype UploadedFile = UploadedFile(name: string, data: seq<bv8>)

  /** `clean_arquivo_excel`: the file passes through unchanged when its name
      ends with `.xlsx`, compared case-sensitively; otherwise validation fails. */
  function CleanArquivoExcel(arquivo: UploadedFile): (r: Result<UploadedFile, string>)
    ensures r.Success? <==> exists stem :: stem + EXCEL_SUFFIX == arquivo.name
    ensures r.Success? ==> r.value == arquivo
    ensures r.Failure? ==> r.error == EXCEL_ERROR
  {
    Strings.EndsWithIff(arquivo.name, EXCEL_SUFFIX);
    if !Strings.EndsWith(arquivo.name, EXCEL_SUFFIX) then Failure(EXCEL_ERROR) else Success(arquivo)
  }

  /** The test is case-sensitive: an upper-case extension is refused. */
  lemma UpperCaseSuffixRejected(stem: string, data: seq<bv8>)
    ensures CleanArquivoExcel(UploadedFile(stem + ".XLSX", data)).Failure?
  {
    var name := stem + ".XLSX";
    assert name[|name| - 5..] == ".XLSX";
  }
}
