# wirs-tireoide in Dafny

A model of the thyroid ultrasound report service in `main.py`. The service has
two HTTP endpoints:

- The report endpoint takes the exam data: age, sex, the three dimensions of
  each lobe, the isthmus thickness and a list of nodules, each described by
  seven free-text fields. It fills a fixed Portuguese report template with
  that data and writes the report as a Word document, one paragraph per line
  of the trimmed text. It saves the document under a random identifier and
  answers with the text and a download link.
- The download endpoint maps a file name back to the stored document.

The model is split into modules:

- `Texto`: the string operations the service relies on. These are Python's
  `str.strip` (whitespace as `str.isspace` defines it), `str.split("\n")` and
  its partner `"\n".join`, and `str` of an integer, together with its inverse.
  The module also has predicates that locate a whole line inside a text
  (`LinhaEm`, `TemLinha`, `Antes`).
- `Laudo`: the exam payload as datatypes, and `gerar_laudo_texto` as a
  function. The template is a triple-quoted f-string, which is its nineteen
  lines joined by newlines plus a final newline. The only branch is on whether
  any nodule was sent: the first nodule is described in one sentence, and the
  opinion bullet is then the fixed label "TI-RADS 4".
- `LaudoProvas`: what the formatter promises.
  - Which lines appear, in which order, with and without nodules.
  - Only the first nodule is read.
  - The report opens with the title and closes with the volume sentence.
  - Trimming and splitting the report gives back exactly its nineteen lines.
- `Docx`: `gerar_docx` as a loop over the trimmed, split text, adding
  paragraphs to a `Documento` object. The document is then saved into a
  `Disco` object that maps paths to documents. Adding a paragraph fails when
  its text holds an ASCII control character that XML 1.0 cannot hold; the
  document is then dropped and nothing is saved.
- `LaudoXml`: which reports the Word writer accepts. The fixed template text
  is XML-safe, so a report whose printed numbers and shown fields are
  XML-safe is saved whole.
- `Api`: the two endpoints. A report request ends either in the answer or,
  when the Word writer refuses a paragraph, in an internal error.
  - The file name, the write path and the download link.
  - `os.path.join` for the read path.
  - The routing of the download URL.
  - The lemmas that connect them: the link handed out routes back to the file
    name; the read path equals the write path; the downloaded document has
    the report's lines as paragraphs.

The payload classes of main.py:10-30 are the datatypes `Laudo.Medidas`,
`Laudo.Nodulo` and `Laudo.EntradaTireoide`, field for field; the answer of the
report endpoint is `Api.Resposta`, inside `Api.Resultado`.

`Laudo.GerarLaudoTexto` models `gerar_laudo_texto` (main.py:35-63). It has no
contract of its own: its promises are the rows for `LaudoProvas.LaudoSemNodulos`,
`LaudoProvas.LaudoComNodulo`, `LaudoProvas.SoPrimeiroNodulo`,
`LaudoProvas.AbreComTitulo`, `LaudoProvas.FechaComVolume`,
`LaudoProvas.MedicoesEmOrdem`, `LaudoProvas.SecoesEmOrdem` and
`LaudoProvas.ParagrafosDoLaudo`.

The random identifier of a report is a parameter of `Api.GerarLaudo`. The four
printed numbers (two lobe volumes, their sum, the isthmus) are computed in
floating point and rendered by Python's float `repr` and `:.2f`. They enter
the formatter as opaque strings, in `Laudo.Numeros`.

## Model

| member | source | states |
|---|---|---|
| Texto.Strip | main.py:67 | `strip()` keeps a contiguous middle slice of the text, whose first and last characters are not whitespace; everything cut off before and after it is whitespace |
| Texto.Split | main.py:67 | `split("\n")` always yields at least one piece |
| Texto.SplitCount | main.py:67 | there is exactly one more piece than the text has newlines |
| Texto.SplitNoNewline | main.py:67 | no piece of a split holds a newline |
| Texto.JoinSplit | main.py:67 | joining the pieces with newlines gives back the split text, for every text |
| Texto.SplitJoin | main.py:67 | splitting the newline-join of newline-free lines gives back those lines |
| Texto.SplitSingle | main.py:67 | a text without a newline is a single piece |
| Texto.SplitAfterLine | main.py:67 | a newline-free line followed by a newline splits into that line, then the pieces of the rest |
| Texto.LinhaDoJoin | main.py:43-62 | in a text made of lines each followed by a newline, line k stands on a line of its own at its computed offset |
| Texto.LinhasEmOrdem | main.py:43-62 | an earlier line of such a text stands before a later one |
| Texto.SplitStripJoin | main.py:43-67 | when the first line starts and the last line ends with non-whitespace, trimming then splitting such a text gives back its lines |
| Texto.IntToDecimal | main.py:61 | `str(idade)` is non-empty, made of digits, with a leading minus sign exactly for a negative age, and without leading zeros: a leading `0` only in `"0"`, never right after the minus sign |
| Texto.IntDecimalRoundTrip | main.py:61 | the age's decimal rendering reads back as the same integer |
| Laudo.FraseNodulo | main.py:57 | the nodule sentence is one line exactly when none of the seven fields holds a newline |
| Laudo.LinhaVolume | main.py:61 | the closing volume sentence is one line exactly when the sex field holds no newline |
| Laudo.Cabecalho | main.py:43-51 | the title, clinical reference, technique and findings heading are nine lines, none with a newline |
| Laudo.Medicoes | main.py:52-56 | the measurement block is five lines, free of newlines when the printed numbers are |
| Laudo.Conclusao | main.py:57-61 | the findings sentence and the opinion are five lines, free of newlines when the sex and first nodule's fields are |
| Laudo.Achado | main.py:40-57 | the findings sentence is "Ausência de nódulos visíveis." exactly when no nodule was sent; otherwise it describes the first nodule |
| Laudo.Tirads | main.py:41 | the opinion label is "TI-RADS 4" exactly when some nodule was sent, whatever the nodule says |
| Laudo.Linhas | main.py:43-62 | the template has nineteen lines; `LaudoProvas.PosicoesDasLinhas` places each of them |
| LaudoProvas.PosicoesDasLinhas | main.py:43-61 | the template has nineteen lines; it gives each of them by index: the title, the four headings, the clinical reference and technique sentences, the five blank lines, the four measurement lines with their units, the findings sentence and both opinion bullets |
| LaudoProvas.MedicoesEmOrdem | main.py:51-55 | the findings heading, the right lobe volume, the left lobe volume, the total volume (each in cm³) and the isthmus (in cm) stand as lines, in that order, with the numbers as printed |
| LaudoProvas.LaudoSemNodulos | main.py:40-60 | without nodules the report has the lines "Ausência de nódulos visíveis." and "• Sem nódulos identificados" |
| LaudoProvas.LaudoComNodulo | main.py:40-60 | with a nodule the report has the line "• TI-RADS 4" whatever the nodule says. It also has the first nodule's seven fields, in order, in one fixed sentence on a line of its own |
| LaudoProvas.SoPrimeiroNodulo | main.py:40 | two inputs that differ only after their first nodule give the same report |
| LaudoProvas.AbreComTitulo | main.py:43 | the report's first line is "ULTRASSONOGRAFIA DA TIREOIDE" |
| LaudoProvas.FechaComVolume | main.py:61-62 | the report's last line is the volume sentence with the sex and `str` of the age, followed by the final newline |
| LaudoProvas.SecoesEmOrdem | main.py:45-59 | the headings REFERÊNCIA CLÍNICA, TÉCNICA, RELATÓRIO and OPINIÃO stand as lines, in that order |
| LaudoProvas.ParagrafosDoLaudo | main.py:43-67 | with no newline inside the fields, trimming and splitting the report gives exactly its nineteen template lines |
| LaudoProvas.ConclusaoSemNodulos | main.py:57-60 | without nodules the closing lines hold the no-nodule sentence and not the "TI-RADS 4" bullet |
| LaudoProvas.ConclusaoComNodulo | main.py:57-60 | with a nodule the closing lines hold the "TI-RADS 4" bullet and not the no-nodule sentence |
| LaudoProvas.RotuloExclusivo | main.py:40-67 | among the paragraphs, the no-nodule sentence appears exactly when there is no nodule, and "• TI-RADS 4" appears exactly when there is one |
| Docx.Documento.constructor | main.py:66 | a new document has no paragraphs |
| Docx.Documento.AdicionarParagrafo | main.py:68 | the call succeeds exactly when XML can hold every character of the text, and then the paragraph is appended after the existing ones |
| Docx.Disco.Salvar | main.py:69 | saving stores the document's paragraphs under the path and changes no other path |
| Docx.GerarDocx | main.py:65-69 | it succeeds exactly when every piece of the trimmed, newline-split text is XML-safe. Then the stored document has one paragraph per piece, in order, and no other path changes; on failure storage is unchanged |
| Docx.StripXml | main.py:67 | trimming keeps XML-safe text XML-safe |
| Docx.SplitXml | main.py:67 | every piece of a split of XML-safe text is XML-safe |
| Docx.JoinXml | main.py:67 | lines joined with newlines are XML-safe when each line is |
| Docx.ParagrafosXml | main.py:65-68 | every paragraph of an XML-safe text can be added, so it is saved whole |
| LaudoXml.TextoLaudoXml | main.py:43-62 | with XML-safe printed numbers, sex and first-nodule fields, the whole report text is XML-safe |
| LaudoXml.LaudoGravavel | main.py:65-76 | with such fields every paragraph of the report can be added, so the report endpoint saves it, whatever line breaks the fields hold |
| Docx.ParagrafosDoTexto | main.py:67 | for any text, the paragraphs number one more than the trimmed text's newlines; none holds a newline; joined with newlines they give back the trimmed text |
| Api.NomeArquivo | main.py:74 | the file name is the identifier followed by ".docx", and has no slash when the identifier has none |
| Api.CaminhoGravado | main.py:75 | the write path of a name that is not absolute is exactly the path the download endpoint reads it from |
| Api.LinkDownload | main.py:79 | routing the link gives back the file name exactly when it is one non-empty segment without a slash; otherwise the link reaches no endpoint |
| Api.PathJoin | main.py:84 | `os.path.join` gives an absolute second part unchanged. Otherwise it gives the first part, one slash exactly when that part is non-empty and does not already end with one, then the second part |
| Api.CaminhoBaixado | main.py:84 | the read path of an absolute name is that name; of any other name, the output folder, a slash and the name |
| Api.RotaBaixar | main.py:82 | a matched download URL has a non-empty, slash-free file name, and the route prefix followed by that name is the URL |
| Api.BaixarLaudo | main.py:82-85 | the download reads the joined path. When something is stored there, it answers with that document, the Word media type and the argument as file name; otherwise it reports the path as absent |
| Api.GerarLaudo | main.py:71-80 | the request succeeds exactly when every paragraph of the report is XML-safe. Then the answer carries the formatted report and the download link of "identifier.docx", storage gains the report's trimmed, split text under "app/output/identifier.docx" and nothing else changes; otherwise it is an internal error and storage is unchanged |
| Api.CaminhoDeVolta | main.py:74-84 | a slash-free file name is routed back to itself, and the read path equals the write path |
| Api.BaixarDepoisDeGerar | main.py:74-85 | following the link of a report just written returns that document, with the Word media type and its file name |
| Api.DownloadDevolveLaudo | main.py:65-85 | with no newline inside the fields, the downloaded document's paragraphs are the report's nineteen lines. Joined and ended with a newline, they are the text the report endpoint answered with |

## Left out

- `calcular_volume` (main.py:32-33) and the total volume (main.py:38) are left out. They are floating-point products and roundings.
- The volumes and the isthmus are rendered by float `repr` and `:.2f`, which are not modelled. The four printed numbers are opaque strings supplied by the caller.
- `Medidas` and `espessura_istmo` are kept as `real` fields of the payload, but the report does not read them.
- Pydantic validation and coercion of the request body are not modelled. The datatypes stand for an already validated payload.
- `uuid.uuid4()` is not modelled: the identifier is a parameter. That it is unique and free of slashes is taken as given, and the routing lemmas require the latter.
- The python-docx document format is left out. A document is its sequence of paragraph texts. A new document is taken to have no paragraphs, as the library's default template has none in its body.
- Writing to the file system and its failures (a missing or read-only output folder) are left out. Storage is a map from path to document, and a save of an accepted document always succeeds.
- Docx.CaractereXml: only the ASCII control characters are treated as refused by XML. Whether other characters (lone surrogates, U+FFFE, U+FFFF) are refused is not modelled.
- Docx.Documento.AdicionarParagrafo: on failure the document's paragraphs are left unspecified, since the caller drops the document.
- LaudoXml.LaudoGravavel: gives a sufficient condition for the report to be saved; `Api.GerarLaudo` states the exact condition on the report's paragraphs.
- The HTTP 500 answer that an exception from the Word writer becomes is modelled only as the outcome `ErroInterno`.
- FastAPI routing is modelled only for the download route's single path segment. Percent-decoding of the URL, the HTTP status codes and the JSON encoding of the answer are left out.
- `FileResponse` streaming is left out. The source performs no existence check before answering, and the absence of a file only surfaces when the response is sent. `Api.BaixarLaudo` makes that outcome explicit as `Ausente`.
- Concurrency between requests is left out, since storage is shared process-wide.
- Paragraph-level properties (`LaudoProvas.ParagrafosDoLaudo`, `LaudoProvas.RotuloExclusivo`, `Api.DownloadDevolveLaudo`) require that no free-text field and no printed number holds a newline. The source does not reject such input, and a newline inside a field becomes an extra paragraph. The text-level lemmas (`LaudoSemNodulos`, `LaudoComNodulo`, `AbreComTitulo`, `FechaComVolume`, `SecoesEmOrdem`) hold for every input.
