/** `gerar_docx`: the report text, trimmed and cut at its newlines, becomes
    the paragraphs of a Word document, which is saved under a path. */
module Docx {
  import opened Texto

  /** Whether XML 1.0 can hold a character, as far as the ASCII control
      characters go: the paragraph text goes into the document's XML, which
      refuses NUL and every control character below the space except tab,
      line feed and carriage return. */
  predicate CaractereXml(c: char) {
    c >= ' ' || c == '\t' || c == '\n' || c == '\r'
  }

  /** A text every character of which XML can hold. */
  predicate TextoXml(s: string) {
    forall i :: 0 <= i < |s| ==> CaractereXml(s[i])
  }

  /** A Word document being built: its paragraphs, in order. A new document
      has none. */
  class Documento {
    var paragrafos: seq<string>

    constructor ()
      ensures paragrafos == []
    {
      paragrafos := [];
    }

    /** `add_paragraph`: one more paragraph at the end, when XML can hold its
        text; otherwise the call fails. */
    method AdicionarParagrafo(linha: string) returns (ok: bool)
      modifies this
      ensures ok == TextoXml(linha)
      ensures ok ==> paragrafos == old(paragrafos) + [linha]
    {
      ok := TextoXml(linha);
      if ok {
        paragrafos := paragrafos + [linha];
      }
    }
  }

  /** The output storage as far as the service uses it: the paragraphs of
      each saved document, by path. */
  class Disco {
    var arquivos: map<string, seq<string>>

    constructor ()
      ensures arquivos == map[]
    {
      arquivos := map[];
    }

    /** `save`: writes the document under the path, replacing what was there
      and leaving every other path alone. */
    method Salvar(doc: Documento, caminho: string)
      modifies this
      ensures arquivos == old(arquivos)[caminho := doc.paragrafos]
    {
      arquivos := arquivos[caminho := doc.paragrafos];
    }
  }

  /** `gerar_docx`: one paragraph per piece of the trimmed text, in order,
      saved under `caminho`; nothing else in storage changes. When a piece
      holds a character XML refuses, adding it fails, the document is dropped
      and storage is left as it was. */
  method GerarDocx(texto: string, caminho: string, disco: Disco) returns (ok: bool)
    modifies disco
    ensures ok <==> forall k :: 0 <= k < |Split(Strip(texto))| ==> TextoXml(Split(Strip(texto))[k])
    ensures disco.arquivos
      == if ok then old(disco.arquivos)[caminho := Split(Strip(texto))] else old(disco.arquivos)
  {
    var doc := new Documento();
    var linhas := Split(Strip(texto));
    for i := 0 to |linhas|
      invariant doc.paragrafos == linhas[..i]
      invariant forall k :: 0 <= k < i ==> TextoXml(linhas[k])
      invariant disco.arquivos == old(disco.arquivos)
    {
      ok := doc.AdicionarParagrafo(linhas[i]);
      if !ok {
        assert !TextoXml(linhas[i]) && linhas == Split(Strip(texto));
        return;
      }
    }
    assert linhas[..|linhas|] == linhas;
    disco.Salvar(doc, caminho);
    ok := true;
  }

  /** What the saved paragraphs are, for any text: there is at least one; no
      paragraph holds a newline; there is one more paragraph than the trimmed
      text has newlines; and joining them with newlines gives the trimmed text
      back, so no character of it is lost. */
  lemma ParagrafosDoTexto(texto: string)
    ensures var ps := Split(Strip(texto));
      |ps| > 0
      && |ps| == multiset(Strip(texto))['\n'] + 1
      && (forall k :: 0 <= k < |ps| ==> '\n' !in ps[k])
      && Join(ps) == Strip(texto)
  {
    SplitCount(Strip(texto));
    SplitNoNewline(Strip(texto));
    JoinSplit(Strip(texto));
  }

  /** Trimming keeps XML-safe text XML-safe. */
  lemma StripXml(s: string)
    requires TextoXml(s)
    ensures TextoXml(Strip(s))
  {
    var r := Strip(s);
    forall i | 0 <= i < |r| ensures CaractereXml(r[i]) {
      assert r[i] == s[Lead(s) + i];
    }
  }

  /** Every piece of a split of XML-safe text is XML-safe. */
  lemma {:induction false} SplitXml(s: string)
    requires TextoXml(s)
    ensures forall k :: 0 <= k < |Split(s)| ==> TextoXml(Split(s)[k])
    decreases |s|
  {
    if s != [] {
      var rest := s[1..];
      SplitXml(rest);
      assert s == [s[0]] + rest;
      if s[0] == '\n' {
        SplitNewline(rest);
      } else {
        SplitChar(s[0], rest);
        var t := Split(rest);
        var p := [s[0]] + t[0];
        forall i | 0 <= i < |p| ensures CaractereXml(p[i]) {
          if i > 0 { assert p[i] == t[0][i - 1]; }
        }
      }
    }
  }

  /** Text made of two XML-safe parts is XML-safe. */
  lemma ConcatXml(a: string, b: string)
    requires TextoXml(a) && TextoXml(b)
    ensures TextoXml(a + b)
  {
    forall i | 0 <= i < |a + b| ensures CaractereXml((a + b)[i]) {
      if i >= |a| {
        assert (a + b)[i] == b[i - |a|];
      }
    }
  }

  /** Joining XML-safe lines with newlines gives XML-safe text. */
  lemma {:induction false} JoinXml(lines: seq<string>)
    requires forall k :: 0 <= k < |lines| ==> TextoXml(lines[k])
    ensures TextoXml(Join(lines))
    decreases |lines|
  {
    if |lines| > 1 {
      JoinXml(lines[1..]);
      ConcatXml(lines[0], "\n");
      ConcatXml(lines[0] + "\n", Join(lines[1..]));
    }
  }

  /** An XML-safe text is saved whole: every paragraph of its trimmed split
      can be added, so GerarDocx succeeds on it. */
  lemma ParagrafosXml(texto: string)
    requires TextoXml(texto)
    ensures forall k :: 0 <= k < |Split(Strip(texto))| ==> TextoXml(Split(Strip(texto))[k])
  {
    StripXml(texto);
    SplitXml(Strip(texto));
  }
}
