/** The two HTTP endpoints: the report endpoint, which writes the Word file
    under a fresh identifier and answers with the text and a download link,
    and the download endpoint, which maps a file name back to a stored file. */
module Api {
  import opened Texto
  import opened Laudo
  import opened Docx
  import LaudoProvas

  datatype Option<T> = None | Some(value: T)

  /** The folder the Word files are written to and read from. */
  const PastaSaida := "app/output"
  /** The route of the download endpoint, up to its one path parameter. */
  const PrefixoDownload := "/baixar-laudo/"
  /** The media type announced for the Word file. */
  const TipoDocx := "application/vnd.openxmlformats-" + "officedocument.wordprocessingml.document"

  /** The answer of the report endpoint. */
  datatype Resposta = Resposta(laudo_txt: string, download_docx: string)

  /** The outcome of a report request: the answer, or an internal error when
      writing the Word file failed. */
  datatype Resultado = Gerado(resposta: Resposta) | ErroInterno

  /** The answer of the download endpoint: the file response for the path, or,
      when nothing is stored there, that path, which the response then fails
      to open. */
  datatype Download =
    | Arquivo(caminho: string, media_type: string, filename: string, paragrafos: seq<string>)
    | Ausente(caminho: string)

  /** The file name given to a report: the identifier and the `.docx` suffix. */
  function NomeArquivo(id: string): (r: string)
    ensures |r| == |id| + 5 && r[..|id|] == id && r[|id|..] == ".docx"
    ensures '/' !in id ==> '/' !in r
  {
    id + ".docx"
  }

  /** Where the report endpoint writes a file: for any name that is not an
      absolute path, the very place the download endpoint reads it from. */
  function CaminhoGravado(nome: string): (r: string)
    ensures !(|nome| > 0 && nome[0] == '/') ==> r == CaminhoBaixado(nome)
  {
    PastaSaida + "/" + nome
  }

  /** The download link the report endpoint hands out: routing gives the name
      back exactly when it is one non-empty path segment, and otherwise the
      link reaches no endpoint. */
  function LinkDownload(nome: string): (r: string)
    ensures RotaBaixar(r) == if nome != [] && '/' !in nome then Some(nome) else None
  {
    var url := PrefixoDownload + nome;
    assert url[..|PrefixoDownload|] == PrefixoDownload && url[|PrefixoDownload|..] == nome;
    url
  }

  /** `os.path.join(a, b)` on POSIX paths, for two parts. */
  function PathJoin(a: string, b: string): (r: string)
    ensures |b| > 0 && b[0] == '/' ==> r == b
    ensures !(|b| > 0 && b[0] == '/') ==>
      |a| + |b| <= |r| <= |a| + |b| + 1 && r[..|a|] == a && r[|r| - |b|..] == b
      && (|a| > 0 ==> r[|r| - |b| - 1] == '/')
      && (|a| > 0 && a[|a| - 1] != '/' ==> |r| == |a| + |b| + 1)
      && (a == [] || a[|a| - 1] == '/' ==> |r| == |a| + |b|)
  {
    if |b| > 0 && b[0] == '/' then b
    else if a == [] || a[|a| - 1] == '/' then a + b
    else a + "/" + b
  }

  /** Where the download endpoint looks for a file: inside the output folder
      for a relative name, but the name itself when it is an absolute path. */
  function CaminhoBaixado(arquivo: string): (r: string)
    ensures |arquivo| > 0 && arquivo[0] == '/' ==> r == arquivo
    ensures !(|arquivo| > 0 && arquivo[0] == '/') ==> r == PastaSaida + "/" + arquivo
  {
    PathJoin(PastaSaida, arquivo)
  }

  /** Routing of a request path to the download endpoint: it matches when it
      is the route's prefix followed by one non-empty segment without a slash,
      and the segment is the endpoint's argument. */
  function RotaBaixar(url: string): (r: Option<string>)
    ensures r.Some? ==> r.value != [] && '/' !in r.value && PrefixoDownload + r.value == url
  {
    var n := |PrefixoDownload|;
    if |url| > n && url[..n] == PrefixoDownload && '/' !in url[n..] then
      assert url == url[..n] + url[n..];
      Some(url[n..])
    else None
  }

  /** `baixar_laudo`: the file response for the joined path, named after the
      argument, with the Word media type. */
  function BaixarLaudo(arquivos: map<string, seq<string>>, arquivo: string): (r: Download)
    ensures r.caminho == CaminhoBaixado(arquivo)
    ensures r.Arquivo? <==> CaminhoBaixado(arquivo) in arquivos
    ensures r.Arquivo? ==> r.media_type == TipoDocx && r.filename == arquivo
                           && r.paragrafos == arquivos[CaminhoBaixado(arquivo)]
  {
    var caminho := CaminhoBaixado(arquivo);
    if caminho in arquivos then Arquivo(caminho, TipoDocx, arquivo, arquivos[caminho])
    else Ausente(caminho)
  }

  /** `gerar_laudo`: formats the report, writes its Word file under the given
      identifier and answers with the text and the download link. The
      identifier is what the program draws at random. When the Word writer
      refuses a paragraph, the request ends in an internal error and nothing
      is stored. */
  method GerarLaudo(dados: EntradaTireoide, num: Numeros, id: string, disco: Disco)
    returns (r: Resultado)
    modifies disco
    ensures var ps := Split(Strip(GerarLaudoTexto(dados, num)));
      r.Gerado? <==> forall k :: 0 <= k < |ps| ==> TextoXml(ps[k])
    ensures r.Gerado? ==>
      r.resposta == Resposta(GerarLaudoTexto(dados, num), LinkDownload(NomeArquivo(id)))
      && disco.arquivos == old(disco.arquivos)[CaminhoGravado(NomeArquivo(id))
                                               := Split(Strip(GerarLaudoTexto(dados, num)))]
    ensures r.ErroInterno? ==> disco.arquivos == old(disco.arquivos)
  {
    var laudo := GerarLaudoTexto(dados, num);
    var nome := NomeArquivo(id);
    var caminho := CaminhoGravado(nome);
    var ok := GerarDocx(laudo, caminho, disco);
    if ok {
      r := Gerado(Resposta(laudo, LinkDownload(nome)));
    } else {
      r := ErroInterno;
    }
  }

  /** A slash-free file name is routed back to itself, and the download
      endpoint then looks exactly where the report endpoint wrote. */
  lemma CaminhoDeVolta(nome: string)
    requires nome != [] && '/' !in nome
    ensures RotaBaixar(LinkDownload(nome)) == Some(nome)
    ensures CaminhoBaixado(nome) == CaminhoGravado(nome)
  {
    assert nome[0] != '/';
  }

  /** Following the download link of a report written under a slash-free
      identifier returns the Word file just written: its paragraphs, the Word
      media type, and the file name as download name. */
  lemma BaixarDepoisDeGerar(arquivos: map<string, seq<string>>, id: string, texto: string)
    requires '/' !in id
    ensures var nome := NomeArquivo(id);
      var depois := arquivos[CaminhoGravado(nome) := Split(Strip(texto))];
      RotaBaixar(LinkDownload(nome)) == Some(nome)
      && BaixarLaudo(depois, nome)
         == Arquivo(CaminhoGravado(nome), TipoDocx, nome, Split(Strip(texto)))
  {
    CaminhoDeVolta(NomeArquivo(id));
  }

  /** With no line breaks inside the fields, the downloaded Word file has
      exactly the nineteen lines of the report as paragraphs, and those
      paragraphs, joined and ended with a newline, are the text the report
      endpoint answered with. */
  lemma DownloadDevolveLaudo(dados: EntradaTireoide, num: Numeros, id: string,
                             arquivos: map<string, seq<string>>)
    requires SemQuebra(dados, num) && '/' !in id
    ensures var nome := NomeArquivo(id);
      var texto := GerarLaudoTexto(dados, num);
      var r := BaixarLaudo(arquivos[CaminhoGravado(nome) := Split(Strip(texto))], nome);
      r.Arquivo? && r.paragrafos == Linhas(dados, num) && |r.paragrafos| == 19
      && Join(r.paragrafos) + "\n" == texto
  {
    BaixarDepoisDeGerar(arquivos, id, GerarLaudoTexto(dados, num));
    LaudoProvas.ParagrafosDoLaudo(dados, num);
  }
}
