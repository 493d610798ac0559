/** Which reports the Word writer accepts: the characters XML refuses can only
    come from the exam's fields, so a report whose fields are XML-safe is
    saved whole. */
module LaudoXml {
  import opened Texto
  import opened Laudo
  import opened Docx

  /** The printed numbers and the free-text fields the report shows hold only
      characters XML can hold. */
  predicate CamposXml(dados: EntradaTireoide, num: Numeros) {
    TextoXml(num.vdir) && TextoXml(num.vesq) && TextoXml(num.vtotal) && TextoXml(num.istmo)
    && TextoXml(dados.sexo)
    && (|dados.nodulos| > 0 ==> NoduloXml(dados.nodulos[0]))
  }

  /** The seven fields of a nodule hold only characters XML can hold. */
  predicate NoduloXml(nod: Nodulo) {
    TextoXml(nod.local) && TextoXml(nod.dimensoes_mm) && TextoXml(nod.composicao)
    && TextoXml(nod.ecogenicidade) && TextoXml(nod.margens)
    && TextoXml(nod.calcificacoes) && TextoXml(nod.formato)
  }

  // The fixed text of the template, piece by piece, is XML-safe. Each lemma
  // covers a few pieces so that each proof stays small.

  /** The title and the empty line. */
  lemma TituloXml()
    ensures TextoXml(Titulo)
    ensures TextoXml("")
  {
  }

  /** The four section headings. */
  lemma SecoesXml()
    ensures TextoXml("REFERÊNCIA CLÍNICA:")
    ensures TextoXml("TÉCNICA:")
    ensures TextoXml("RELATÓRIO:")
    ensures TextoXml("OPINIÃO:")
  {
  }

  /** First half of the clinical reference sentence. */
  lemma SolicitadoXml()
    ensures TextoXml("Exame solicitado para ")
  {
  }

  /** Second half of the clinical reference sentence. */
  lemma AvaliacaoXml()
    ensures TextoXml("avaliação da glândula tireoide.")
  {
  }

  /** First half of the technique sentence. */
  lemma TransdutorXml()
    ensures TextoXml("Exame realizado com transdutor ")
  {
  }

  /** Second half of the technique sentence. */
  lemma FrequenciaXml()
    ensures TextoXml("linear de alta frequência.")
  {
  }

  /** The lobe volume labels and their unit. */
  lemma LobosXml()
    ensures TextoXml("Lobo direito: ")
    ensures TextoXml("Lobo esquerdo: ")
    ensures TextoXml(" cm³")
  {
  }

  /** The total volume and isthmus labels and the isthmus unit. */
  lemma TotalIstmoXml()
    ensures TextoXml("Volume total estimado: ")
    ensures TextoXml("Istmo: ")
    ensures TextoXml(" cm")
  {
  }

  /** The opening of the nodule sentence. */
  lemma NoduloInicioXml()
    ensures TextoXml("Nódulo identificado no lobo ")
  {
  }

  /** The nodule sentence's size, composition and echogenicity labels. */
  lemma NoduloMeioXml()
    ensures TextoXml(", medindo ")
    ensures TextoXml(" mm, de composição ")
    ensures TextoXml(", ecogenicidade ")
  {
  }

  /** The nodule sentence's margin, calcification and shape labels and its full stop. */
  lemma NoduloFimXml()
    ensures TextoXml(", margens ")
    ensures TextoXml(", calcificações ")
    ensures TextoXml(", formato ")
    ensures TextoXml(".")
  {
  }

  /** The no-nodule sentence. */
  lemma SemNodulosXml()
    ensures TextoXml(SemNodulos)
  {
  }

  /** The bullet and both opinion labels. */
  lemma RotulosXml()
    ensures TextoXml(Marcador)
    ensures TextoXml(RotuloComNodulo)
    ensures TextoXml(RotuloSemNodulos)
  {
  }

  /** The opening of the volume sentence. */
  lemma VolumeInicioXml()
    ensures TextoXml("Volume glandular compatível com sexo ")
  {
  }

  /** The age label and the closing of the volume sentence. */
  lemma VolumeFimXml()
    ensures TextoXml(" e idade ")
    ensures TextoXml(" anos.")
  {
  }

  /** The data-free lines are XML-safe. */
  lemma CabecalhoXml()
    ensures forall x :: x in Cabecalho() ==> TextoXml(x)
  {
    TituloXml();
    SecoesXml();
    SolicitadoXml();
    AvaliacaoXml();
    TransdutorXml();
    FrequenciaXml();
    ConcatXml("Exame solicitado para ", "avaliação da glândula tireoide.");
    ConcatXml("Exame realizado com transdutor ", "linear de alta frequência.");
  }

  /** The measurement lines are XML-safe when the printed numbers are. */
  lemma MedicoesXml(num: Numeros)
    requires TextoXml(num.vdir) && TextoXml(num.vesq) && TextoXml(num.vtotal) && TextoXml(num.istmo)
    ensures forall x :: x in Medicoes(num) ==> TextoXml(x)
  {
    TituloXml();
    LobosXml();
    TotalIstmoXml();
    ConcatXml("Lobo direito: ", num.vdir);
    ConcatXml("Lobo direito: " + num.vdir, " cm³");
    ConcatXml("Lobo esquerdo: ", num.vesq);
    ConcatXml("Lobo esquerdo: " + num.vesq, " cm³");
    ConcatXml("Volume total estimado: ", num.vtotal);
    ConcatXml("Volume total estimado: " + num.vtotal, " cm³");
    ConcatXml("Istmo: ", num.istmo);
    ConcatXml("Istmo: " + num.istmo, " cm");
  }

  /** The nodule sentence is XML-safe when the nodule's fields are. */
  lemma FraseNoduloXml(nod: Nodulo)
    requires NoduloXml(nod)
    ensures TextoXml(FraseNodulo(nod))
  {
    NoduloInicioXml();
    NoduloMeioXml();
    NoduloFimXml();
    var s := "Nódulo identificado no lobo ";
    ConcatXml(s, nod.local);
    s := s + nod.local;
    ConcatXml(s, ", medindo ");
    s := s + ", medindo ";
    ConcatXml(s, nod.dimensoes_mm);
    s := s + nod.dimensoes_mm;
    ConcatXml(s, " mm, de composição ");
    s := s + " mm, de composição ";
    ConcatXml(s, nod.composicao);
    s := s + nod.composicao;
    ConcatXml(s, ", ecogenicidade ");
    s := s + ", ecogenicidade ";
    ConcatXml(s, nod.ecogenicidade);
    s := s + nod.ecogenicidade;
    ConcatXml(s, ", margens ");
    s := s + ", margens ";
    ConcatXml(s, nod.margens);
    s := s + nod.margens;
    ConcatXml(s, ", calcificações ");
    s := s + ", calcificações ";
    ConcatXml(s, nod.calcificacoes);
    s := s + nod.calcificacoes;
    ConcatXml(s, ", formato ");
    s := s + ", formato ";
    ConcatXml(s, nod.formato);
    s := s + nod.formato;
    ConcatXml(s, ".");
  }

  /** The volume sentence is XML-safe when the sex field is: the age is
      printed with digits and a minus sign only. */
  lemma LinhaVolumeXml(dados: EntradaTireoide)
    requires TextoXml(dados.sexo)
    ensures TextoXml(LinhaVolume(dados))
  {
    RotulosXml();
    VolumeInicioXml();
    VolumeFimXml();
    var idade := IntToDecimal(dados.idade);
    assert TextoXml(idade);
    var s := Marcador;
    ConcatXml(s, "Volume glandular compatível com sexo ");
    s := s + "Volume glandular compatível com sexo ";
    ConcatXml(s, dados.sexo);
    s := s + dados.sexo;
    ConcatXml(s, " e idade ");
    s := s + " e idade ";
    ConcatXml(s, idade);
    s := s + idade;
    ConcatXml(s, " anos.");
  }

  /** The closing lines are XML-safe when the sex and the first nodule's
      fields are. */
  lemma ConclusaoXml(dados: EntradaTireoide)
    requires TextoXml(dados.sexo)
    requires |dados.nodulos| > 0 ==> NoduloXml(dados.nodulos[0])
    ensures forall x :: x in Conclusao(dados) ==> TextoXml(x)
  {
    TituloXml();
    SecoesXml();
    SemNodulosXml();
    RotulosXml();
    if |dados.nodulos| > 0 {
      FraseNoduloXml(dados.nodulos[0]);
    }
    LinhaVolumeXml(dados);
    ConcatXml(Marcador, Tirads(dados));
  }

  /** With XML-safe fields the whole report text is XML-safe. */
  lemma TextoLaudoXml(dados: EntradaTireoide, num: Numeros)
    requires CamposXml(dados, num)
    ensures TextoXml(GerarLaudoTexto(dados, num))
  {
    var l := Linhas(dados, num);
    CabecalhoXml();
    MedicoesXml(num);
    ConclusaoXml(dados);
    forall k | 0 <= k < |l| ensures TextoXml(l[k]) {
      assert l[k] in Cabecalho() || l[k] in Medicoes(num) || l[k] in Conclusao(dados);
    }
    JoinXml(l);
    ConcatXml(Join(l), "\n");
  }

  /** With XML-safe fields every paragraph of the report can be added to the
      Word document, so the report endpoint saves it; this holds whatever
      line breaks the fields hold. */
  lemma LaudoGravavel(dados: EntradaTireoide, num: Numeros)
    requires CamposXml(dados, num)
    ensures var ps := Split(Strip(GerarLaudoTexto(dados, num)));
      forall k :: 0 <= k < |ps| ==> TextoXml(ps[k])
  {
    TextoLaudoXml(dados, num);
    ParagrafosXml(GerarLaudoTexto(dados, num));
  }
}
