/** The exam payload and the report formatter `gerar_laudo_texto`: a fixed
    Portuguese template filled with the exam data, with one branch on whether
    any nodule was reported. */
module Laudo {
  import opened Texto

  /** Three linear dimensions of a lobe, in centimetres. */
  datatype Medidas = Medidas(comprimento: real, largura: real, espessura: real)

  /** A nodule: seven free-text descriptors. */
  datatype Nodulo = Nodulo(
    local: string,
    dimensoes_mm: string,
    composicao: string,
    ecogenicidade: string,
    margens: string,
    calcificacoes: string,
    formato: string)

  /** The request body of the report endpoint. */
  datatype EntradaTireoide = EntradaTireoide(
    idade: int,
    sexo: string,
    medidas_lobo_direito: Medidas,
    medidas_lobo_esquerdo: Medidas,
    espessura_istmo: real,
    nodulos: seq<Nodulo>)

  /** The four numbers of the findings section exactly as the program prints
      them: the two lobe volumes and their rounded sum (Python float `repr` of
      values computed from the `Medidas` in floating point) and the istmus
      thickness formatted with two decimals. Their computation is floating
      point and is supplied by the caller of the formatter. */
  datatype Numeros = Numeros(vdir: string, vesq: string, vtotal: string, istmo: string)

  const Titulo := "ULTRASSONOGRAFIA DA TIREOIDE"
  const SemNodulos := "Ausência de nódulos visíveis."
  const RotuloSemNodulos := "Sem nódulos identificados"
  const RotuloComNodulo := "TI-RADS 4"
  /** The bullet that opens both lines of the opinion. */
  const Marcador := "• "
  /** The clinical reference sentence and the technique sentence. */
  const FraseReferencia := "Exame solicitado para " + "avaliação da glândula tireoide."
  const FraseTecnica := "Exame realizado com transdutor " + "linear de alta frequência."

  /** The one sentence describing a nodule. */
  function FraseNodulo(nod: Nodulo): (r: string)
    ensures '\n' !in r <==>
      '\n' !in nod.local && '\n' !in nod.dimensoes_mm && '\n' !in nod.composicao
      && '\n' !in nod.ecogenicidade && '\n' !in nod.margens
      && '\n' !in nod.calcificacoes && '\n' !in nod.formato
  {
    assert forall i :: 0 <= i < |"Nódulo identificado no lobo "| ==> "Nódulo identificado no lobo "[i] != '\n';
    assert forall i :: 0 <= i < |" mm, de composição "| ==> " mm, de composição "[i] != '\n';
    assert forall i :: 0 <= i < |", ecogenicidade "| ==> ", ecogenicidade "[i] != '\n';
    assert forall i :: 0 <= i < |", calcificações "| ==> ", calcificações "[i] != '\n';
    "Nódulo identificado no lobo " + nod.local + ", medindo " + nod.dimensoes_mm
    + " mm, de composição " + nod.composicao + ", ecogenicidade " + nod.ecogenicidade
    + ", margens " + nod.margens + ", calcificações " + nod.calcificacoes
    + ", formato " + nod.formato + "."
  }

  /** Findings sentence: only the first nodule is described, and the
      "no visible nodules" sentence stands exactly when there is none. */
  function Achado(dados: EntradaTireoide): (r: string)
    ensures r == SemNodulos <==> dados.nodulos == []
  {
    if |dados.nodulos| > 0 then
      var nod := dados.nodulos[0];
      var inicio := "Nódulo identificado no lobo " + nod.local;
      assert inicio[0] == 'N';
      assert FraseNodulo(nod)[0] == inicio[0];
      FraseNodulo(nod)
    else SemNodulos
  }

  /** Opinion label: fixed, whatever the nodule looks like; "TI-RADS 4"
      exactly when some nodule was reported. */
  function Tirads(dados: EntradaTireoide): (r: string)
    ensures r == RotuloComNodulo <==> dados.nodulos != []
  {
    if |dados.nodulos| > 0 then RotuloComNodulo else RotuloSemNodulos
  }

  /** The closing sentence; it is one line exactly when the sex label is. */
  function LinhaVolume(dados: EntradaTireoide): (r: string)
    ensures '\n' !in r <==> '\n' !in dados.sexo
  {
    var idade := IntToDecimal(dados.idade);
    assert '\n' !in idade by {
      forall k | 0 <= k < |idade| ensures idade[k] != '\n' { }
    }
    Marcador + "Volume glandular compatível com sexo " + dados.sexo + " e idade " + idade + " anos."
  }

  /** Title, clinical reference, technique and the findings heading: lines 1
      to 9 of the template, which take no data. */
  function Cabecalho(): (r: seq<string>)
    ensures |r| == 9 && forall x :: x in r ==> '\n' !in x
  {
    assert forall i :: 0 <= i < |Titulo| ==> Titulo[i] != '\n';
    assert forall i :: 0 <= i < |"REFERÊNCIA CLÍNICA:"| ==> "REFERÊNCIA CLÍNICA:"[i] != '\n';
    assert forall i :: 0 <= i < |FraseReferencia| ==> FraseReferencia[i] != '\n';
    assert forall i :: 0 <= i < |"TÉCNICA:"| ==> "TÉCNICA:"[i] != '\n';
    assert forall i :: 0 <= i < |FraseTecnica| ==> FraseTecnica[i] != '\n';
    assert forall i :: 0 <= i < |"RELATÓRIO:"| ==> "RELATÓRIO:"[i] != '\n';
    [Titulo, ""]
    + ["REFERÊNCIA CLÍNICA:", FraseReferencia, ""]
    + ["TÉCNICA:", FraseTecnica, ""]
    + ["RELATÓRIO:"]
  }

  /** The printed numbers are free of line breaks. */
  predicate NumerosSemQuebra(num: Numeros) {
    '\n' !in num.vdir && '\n' !in num.vesq && '\n' !in num.vtotal && '\n' !in num.istmo
  }

  /** The free-text fields the report prints are free of line breaks. */
  predicate DadosSemQuebra(dados: EntradaTireoide) {
    '\n' !in dados.sexo
    && (|dados.nodulos| > 0 ==>
          var nod := dados.nodulos[0];
          '\n' !in nod.local && '\n' !in nod.dimensoes_mm && '\n' !in nod.composicao
          && '\n' !in nod.ecogenicidade && '\n' !in nod.margens
          && '\n' !in nod.calcificacoes && '\n' !in nod.formato)
  }

  /** The volumes and the istmus: lines 10 to 14 of the template. */
  function Medicoes(num: Numeros): (r: seq<string>)
    ensures |r| == 5
    ensures NumerosSemQuebra(num) ==> forall x :: x in r ==> '\n' !in x
  {
    [ "Lobo direito: " + num.vdir + " cm³",
      "Lobo esquerdo: " + num.vesq + " cm³",
      "Volume total estimado: " + num.vtotal + " cm³",
      "Istmo: " + num.istmo + " cm",
      "" ]
  }

  /** The nodule sentence and the opinion: lines 15 to 19 of the template. */
  function Conclusao(dados: EntradaTireoide): (r: seq<string>)
    ensures |r| == 5
    ensures DadosSemQuebra(dados) ==> forall x :: x in r ==> '\n' !in x
  {
    assert '\n' !in Marcador + RotuloComNodulo && '\n' !in Marcador + RotuloSemNodulos;
    assert '\n' !in "OPINIÃO:";
    assert DadosSemQuebra(dados) ==> '\n' !in Achado(dados) && '\n' !in LinhaVolume(dados);
    [ Achado(dados),
      "",
      "OPINIÃO:",
      Marcador + Tirads(dados),
      LinhaVolume(dados) ]
  }

  /** The nineteen lines of the report template, in order. */
  function Linhas(dados: EntradaTireoide, num: Numeros): (r: seq<string>)
    ensures |r| == 19
  {
    Cabecalho() + Medicoes(num) + Conclusao(dados)
  }

  /** `gerar_laudo_texto`: the template is a triple-quoted f-string, that is the
      template lines separated by newlines, with a newline after the last one. */
  function GerarLaudoTexto(dados: EntradaTireoide, num: Numeros): string {
    Join(Linhas(dados, num)) + "\n"
  }

  /** No free-text field nor printed number holds a line break, so that the
      report has exactly the template's lines. */
  predicate SemQuebra(dados: EntradaTireoide, num: Numeros) {
    NumerosSemQuebra(num) && DadosSemQuebra(dados)
  }
}
