/** What the report formatter promises about the text it produces. */
module LaudoProvas {
  import opened Texto
  import opened Laudo

  /** Where the template puts each of its fixed and variable lines. */
  lemma PosicoesDasLinhas(dados: EntradaTireoide, num: Numeros)
    ensures var l := Linhas(dados, num);
      |l| == 19 && l[0] == Titulo && l[1] == "" && l[2] == "REFERÊNCIA CLÍNICA:"
      && l[3] == FraseReferencia && l[4] == "" && l[5] == "TÉCNICA:"
      && l[6] == FraseTecnica && l[7] == ""
      && l[8] == "RELATÓRIO:"
      && l[9] == "Lobo direito: " + num.vdir + " cm³"
      && l[10] == "Lobo esquerdo: " + num.vesq + " cm³"
      && l[11] == "Volume total estimado: " + num.vtotal + " cm³"
      && l[12] == "Istmo: " + num.istmo + " cm"
      && l[13] == "" && l[14] == Achado(dados) && l[15] == "" && l[16] == "OPINIÃO:"
      && l[17] == Marcador + Tirads(dados) && l[18] == LinhaVolume(dados)
  {
  }

  /** Unfolds the report text into its joined lines, in a proof context of
      its own; FechaComVolume uses it. */
  lemma TextoDasLinhas(dados: EntradaTireoide, num: Numeros)
    ensures GerarLaudoTexto(dados, num) == Join(Linhas(dados, num)) + "\n"
  {
  }

  /** Without nodules, the report has the "no visible nodules" sentence and the
      "no nodules identified" opinion bullet as lines of their own. */
  lemma LaudoSemNodulos(dados: EntradaTireoide, num: Numeros)
    requires dados.nodulos == []
    ensures TemLinha(GerarLaudoTexto(dados, num), SemNodulos)
    ensures TemLinha(GerarLaudoTexto(dados, num), Marcador + RotuloSemNodulos)
  {
    var l := Linhas(dados, num);
    PosicoesDasLinhas(dados, num);
    LinhaDoTexto(l, 14, SemNodulos);
    LinhaDoTexto(l, 17, Marcador + RotuloSemNodulos);
  }

  /** With at least one nodule, the opinion bullet is exactly "• TI-RADS 4",
      whatever the nodule's fields, and the first nodule's fields stand, in
      order, in one fixed sentence on a line of its own. */
  lemma LaudoComNodulo(dados: EntradaTireoide, num: Numeros)
    requires |dados.nodulos| > 0
    ensures TemLinha(GerarLaudoTexto(dados, num), Marcador + RotuloComNodulo)
    ensures var nod := dados.nodulos[0];
      TemLinha(GerarLaudoTexto(dados, num),
        "Nódulo identificado no lobo " + nod.local + ", medindo " + nod.dimensoes_mm
        + " mm, de composição " + nod.composicao + ", ecogenicidade " + nod.ecogenicidade
        + ", margens " + nod.margens + ", calcificações " + nod.calcificacoes
        + ", formato " + nod.formato + ".")
  {
    var l := Linhas(dados, num);
    PosicoesDasLinhas(dados, num);
    LinhaDoTexto(l, 14, FraseNodulo(dados.nodulos[0]));
    LinhaDoTexto(l, 17, Marcador + RotuloComNodulo);
  }

  /** Only the first nodule is read: inputs that differ only in the nodules
      after the first give the same report. */
  lemma SoPrimeiroNodulo(a: EntradaTireoide, b: EntradaTireoide, num: Numeros)
    requires a.(nodulos := []) == b.(nodulos := [])
    requires |a.nodulos| > 0 <==> |b.nodulos| > 0
    requires |a.nodulos| > 0 ==> a.nodulos[0] == b.nodulos[0]
    ensures GerarLaudoTexto(a, num) == GerarLaudoTexto(b, num)
  {
    assert a.sexo == b.sexo && a.idade == b.idade;
    assert Linhas(a, num) == Linhas(b, num);
  }

  /** The report opens with the title line. */
  lemma AbreComTitulo(dados: EntradaTireoide, num: Numeros)
    ensures LinhaEm(GerarLaudoTexto(dados, num), 0, "ULTRASSONOGRAFIA DA TIREOIDE")
  {
    PosicoesDasLinhas(dados, num);
    PrimeiraLinha(Linhas(dados, num), Titulo);
  }

  /** The last template line is the closing sentence, spelt out. */
  lemma UltimaLinhaDoLaudo(dados: EntradaTireoide, num: Numeros)
    ensures var l := Linhas(dados, num);
      l[18] == Marcador + "Volume glandular compatível com sexo " + dados.sexo
               + " e idade " + IntToDecimal(dados.idade) + " anos."
  {
    PosicoesDasLinhas(dados, num);
    FraseVolume(dados);
  }

  /** The report ends with the volume sentence, which names the patient's sex
      and age, followed by a final newline. */
  lemma FechaComVolume(dados: EntradaTireoide, num: Numeros)
    ensures var t := GerarLaudoTexto(dados, num);
      var fim := Marcador + "Volume glandular compatível com sexo " + dados.sexo + " e idade "
                 + IntToDecimal(dados.idade) + " anos.";
      LinhaEm(t, |t| - |fim| - 1, fim)
  {
    var fim := Marcador + "Volume glandular compatível com sexo " + dados.sexo + " e idade "
               + IntToDecimal(dados.idade) + " anos.";
    UltimaLinhaDoLaudo(dados, num);
    TextoDasLinhas(dados, num);
    UltimaLinhaDe(GerarLaudoTexto(dados, num), Linhas(dados, num), fim);
  }

  /** The closing sentence, spelt out. */
  lemma FraseVolume(dados: EntradaTireoide)
    ensures LinhaVolume(dados) == Marcador + "Volume glandular compatível com sexo " + dados.sexo
                                  + " e idade " + IntToDecimal(dados.idade) + " anos."
  {
  }

  /** The findings section lists, each on a line of its own and in this
      order right after its heading, the right lobe volume, the left lobe
      volume, the estimated total volume, each in cm³, and the isthmus
      thickness in cm, exactly as the numbers are printed. */
  lemma MedicoesEmOrdem(dados: EntradaTireoide, num: Numeros)
    ensures var t := GerarLaudoTexto(dados, num);
      Antes(t, "RELATÓRIO:", "Lobo direito: " + num.vdir + " cm³")
      && Antes(t, "Lobo direito: " + num.vdir + " cm³", "Lobo esquerdo: " + num.vesq + " cm³")
      && Antes(t, "Lobo esquerdo: " + num.vesq + " cm³",
               "Volume total estimado: " + num.vtotal + " cm³")
      && Antes(t, "Volume total estimado: " + num.vtotal + " cm³", "Istmo: " + num.istmo + " cm")
  {
    var l := Linhas(dados, num);
    PosicoesDasLinhas(dados, num);
    LinhasEmOrdem(l, 8, 9, l[8], l[9]);
    LinhasEmOrdem(l, 9, 10, l[9], l[10]);
    LinhasEmOrdem(l, 10, 11, l[10], l[11]);
    LinhasEmOrdem(l, 11, 12, l[11], l[12]);
  }

  /** The four section headings stand as lines of their own in the order
      clinical reference, technique, findings, opinion. */
  lemma SecoesEmOrdem(dados: EntradaTireoide, num: Numeros)
    ensures Antes(GerarLaudoTexto(dados, num), "REFERÊNCIA CLÍNICA:", "TÉCNICA:")
    ensures Antes(GerarLaudoTexto(dados, num), "TÉCNICA:", "RELATÓRIO:")
    ensures Antes(GerarLaudoTexto(dados, num), "RELATÓRIO:", "OPINIÃO:")
  {
    var l := Linhas(dados, num);
    PosicoesDasLinhas(dados, num);
    LinhasEmOrdem(l, 2, 5, "REFERÊNCIA CLÍNICA:", "TÉCNICA:");
    LinhasEmOrdem(l, 5, 8, "TÉCNICA:", "RELATÓRIO:");
    LinhasEmOrdem(l, 8, 16, "RELATÓRIO:", "OPINIÃO:");
  }

  /** With no line breaks inside the fields, trimming the report and splitting
      it on newlines gives exactly the nineteen template lines. */
  lemma ParagrafosDoLaudo(dados: EntradaTireoide, num: Numeros)
    requires SemQuebra(dados, num)
    ensures Split(Strip(GerarLaudoTexto(dados, num))) == Linhas(dados, num)
    ensures |Split(Strip(GerarLaudoTexto(dados, num)))| == 19
  {
    var l := Linhas(dados, num);
    PosicoesDasLinhas(dados, num);
    assert !IsSpace(l[18][|l[18]| - 1]);
    SplitStripJoin(l);
  }

  /** Neither opinion-dependent line occurs among the data-free lines or the
      measurement lines. */
  lemma ForaDoInicio(num: Numeros)
    ensures SemNodulos !in Cabecalho() + Medicoes(num)
    ensures Marcador + RotuloComNodulo !in Cabecalho() + Medicoes(num)
  {
    var tirads := Marcador + RotuloComNodulo;
    assert SemNodulos !in Cabecalho() && tirads !in Cabecalho();
    forall x | x in Medicoes(num) ensures x != SemNodulos && x != tirads {
      assert x == [] || x[0] == 'L' || x[0] == 'V' || x[0] == 'I';
    }
  }

  /** The closing volume sentence is neither of the nodule-dependent lines. */
  lemma VolumeDistinto(dados: EntradaTireoide)
    ensures LinhaVolume(dados) != SemNodulos
    ensures LinhaVolume(dados) != Marcador + RotuloComNodulo
  {
    assert LinhaVolume(dados)[2] == 'V';
  }

  /** Without nodules, the last five lines hold the "no visible nodules"
      sentence and not the "TI-RADS 4" bullet. */
  lemma ConclusaoSemNodulos(dados: EntradaTireoide)
    requires dados.nodulos == []
    ensures SemNodulos in Conclusao(dados)
    ensures Marcador + RotuloComNodulo !in Conclusao(dados)
  {
    var fim := Conclusao(dados);
    VolumeDistinto(dados);
    assert fim[0] == SemNodulos;
    assert fim[3][2] == 'S';
  }

  /** With a nodule, the last five lines hold the "TI-RADS 4" bullet and not
      the "no visible nodules" sentence. */
  lemma ConclusaoComNodulo(dados: EntradaTireoide)
    requires dados.nodulos != []
    ensures SemNodulos !in Conclusao(dados)
    ensures Marcador + RotuloComNodulo in Conclusao(dados)
  {
    var fim := Conclusao(dados);
    VolumeDistinto(dados);
    assert fim[3] == Marcador + RotuloComNodulo;
    var nod := dados.nodulos[0];
    var inicio := "Nódulo identificado no lobo " + nod.local;
    assert inicio[0] == 'N';
    assert fim[0][0] == inicio[0];
  }

  /** Paragraph-level exclusivity: with no line breaks inside the fields, the
      "no visible nodules" line is a paragraph exactly when there is no nodule,
      and the "TI-RADS 4" bullet is one exactly when there is a nodule. */
  lemma RotuloExclusivo(dados: EntradaTireoide, num: Numeros)
    requires SemQuebra(dados, num)
    ensures SemNodulos in Split(Strip(GerarLaudoTexto(dados, num))) <==> dados.nodulos == []
    ensures Marcador + RotuloComNodulo in Split(Strip(GerarLaudoTexto(dados, num))) <==> dados.nodulos != []
  {
    ParagrafosDoLaudo(dados, num);
    ForaDoInicio(num);
    if dados.nodulos == [] {
      ConclusaoSemNodulos(dados);
    } else {
      ConclusaoComNodulo(dados);
    }
    assert Linhas(dados, num) == (Cabecalho() + Medicoes(num)) + Conclusao(dados);
  }
}
