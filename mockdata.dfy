/**
 * The list helpers of src/lib/mockData.ts, generalised from the constant `mockLeads` to
 * any sequence of leads, with the shipped seven leads checked as concrete cases.
 */
module MockData {
  import opened Wrappers
  import opened Seqs
  import opened Sorting
  import opened Types
  import opened Charts

  datatype Origin = Web | WhatsApp | Indicacao | Manual

  /** The mock lead record (a different shape from the backend's `Types.Lead`). */
  datatype MockLead = MockLead(
    id: string,
    clienteNome: string,
    clienteTelefone: string,
    clienteEmail: string,
    areaJuridica: string,
    status: Status,
    temperatura: Temperature,
    urgencia: Urgency,
    origem: Origin,
    advogadoId: string,
    advogadoNome: string,
    diasSemResposta: int,
    proximaAcao: string,
    urgenciaFollowup: FollowupUrgency,
    precisaFollowup: bool,
    descricao: string,
    notas: Option<string>,
    dataCriacao: string,
    dataAtualizacao: string,
    dataEvento: string)

  function Ids(leads: seq<MockLead>): seq<string>
  {
    seq(|leads|, i requires 0 <= i < |leads| => leads[i].id)
  }

  // ---------------------------------------------------------------------------
  // getLeadsByStatus, getLeadsByAdvogado
  // ---------------------------------------------------------------------------

  /** `lead => lead.status === status` */
  function HasStatus(status: string): MockLead -> bool
  {
    (l: MockLead) => StatusName(l.status) == status
  }

  /** `lead => lead.advogadoId === advogadoId` */
  function HasAdvogado(advogadoId: string): MockLead -> bool
  {
    (l: MockLead) => l.advogadoId == advogadoId
  }

  /** `getLeadsByStatus(status)` over `leads`. */
  function ByStatus(leads: seq<MockLead>, status: string): seq<MockLead>
  {
    Filter(leads, HasStatus(status))
  }

  /** `getLeadsByAdvogado(advogadoId)` over `leads`. */
  function ByAdvogado(leads: seq<MockLead>, advogadoId: string): seq<MockLead>
  {
    Filter(leads, HasAdvogado(advogadoId))
  }

  /**
   * Exactly the leads whose status is named `status`, each as often as in the input, in
   * their original order.
   */
  lemma ByStatusSpec(leads: seq<MockLead>, status: string)
    ensures IsSubsequence(ByStatus(leads, status), leads)
    ensures forall l :: l in ByStatus(leads, status) <==> l in leads && StatusName(l.status) == status
    ensures forall l :: multiset(ByStatus(leads, status))[l] ==
              if StatusName(l.status) == status then multiset(leads)[l] else 0
  {
    FilterSubsequence(leads, HasStatus(status));
    FilterMembers(leads, HasStatus(status));
    FilterMultiset(leads, HasStatus(status));
  }

  /** Exactly the leads assigned to `advogadoId`, in their original order. */
  lemma ByAdvogadoSpec(leads: seq<MockLead>, advogadoId: string)
    ensures IsSubsequence(ByAdvogado(leads, advogadoId), leads)
    ensures forall l :: l in ByAdvogado(leads, advogadoId) <==> l in leads && l.advogadoId == advogadoId
    ensures forall l :: multiset(ByAdvogado(leads, advogadoId))[l] ==
              if l.advogadoId == advogadoId then multiset(leads)[l] else 0
  {
    FilterSubsequence(leads, HasAdvogado(advogadoId));
    FilterMembers(leads, HasAdvogado(advogadoId));
    FilterMultiset(leads, HasAdvogado(advogadoId));
  }

  /** A name no status carries (a typo, an unaccented "Invalido") selects nothing. */
  lemma ByStatusUnknownName(leads: seq<MockLead>, status: string)
    requires forall s: Status :: StatusName(s) != status
    ensures ByStatus(leads, status) == []
  {
    FilterNoneKept(leads, HasStatus(status));
  }

  // ---------------------------------------------------------------------------
  // getLeadsNeedingFollowup
  // ---------------------------------------------------------------------------

  /** `{ 'Alta': 0, 'Média': 1, 'Normal': 2, 'Baixa': 3 }` */
  function UrgencyRank(u: FollowupUrgency): nat
  {
    match u
    case FAlta => 0
    case FMedia => 1
    case FNormal => 2
    case FBaixa => 3
  }

  /** The comparator: rank difference, or, when that is 0 (falsy), days descending. */
  function FollowupCompare(a: MockLead, b: MockLead): int
  {
    var byRank := UrgencyRank(a.urgenciaFollowup) - UrgencyRank(b.urgenciaFollowup);
    if byRank != 0 then byRank else b.diasSemResposta - a.diasSemResposta
  }

  /** `a` may come before `b`. */
  function FollowupOrder(): (MockLead, MockLead) -> bool
  {
    (a: MockLead, b: MockLead) => FollowupCompare(a, b) <= 0
  }

  predicate NeedsFollowup(l: MockLead)
  {
    l.precisaFollowup
  }

  /** `getLeadsNeedingFollowup()` over `leads`. */
  function NeedingFollowup(leads: seq<MockLead>): seq<MockLead>
  {
    StableSort(Filter(leads, NeedsFollowup), FollowupOrder())
  }

  /** The comparator is consistent: antisymmetric in sign, so total, and transitive. */
  lemma FollowupOrderIsConsistent()
    ensures TotalPreorder(FollowupOrder())
  {
    var le := FollowupOrder();
    forall a: MockLead, b: MockLead, c: MockLead | le(a, b) && le(b, c) ensures le(a, c) {
      assert FollowupCompare(a, b) <= 0 && FollowupCompare(b, c) <= 0;
    }
  }

  /** Exactly the leads flagged for follow-up, each as often as in the input. */
  lemma NeedingFollowupMembers(leads: seq<MockLead>)
    ensures multiset(NeedingFollowup(leads)) == multiset(Filter(leads, NeedsFollowup))
    ensures forall l :: l in NeedingFollowup(leads) <==> l in leads && l.precisaFollowup
    ensures |NeedingFollowup(leads)| == |Filter(leads, NeedsFollowup)| <= |leads|
  {
    var f := Filter(leads, NeedsFollowup);
    SortIsPermutation(f, FollowupOrder());
    FilterMembers(leads, NeedsFollowup);
    FilterLength(leads, NeedsFollowup);
    forall l ensures l in NeedingFollowup(leads) <==> l in f {
      assert l in NeedingFollowup(leads) <==> l in multiset(NeedingFollowup(leads));
      assert l in f <==> l in multiset(f);
    }
  }

  /** Urgency rank never decreases; within one rank the days without reply never increase. */
  lemma NeedingFollowupOrdered(leads: seq<MockLead>)
    ensures forall i, j :: 0 <= i < j < |NeedingFollowup(leads)| ==>
              UrgencyRank(NeedingFollowup(leads)[i].urgenciaFollowup) <= UrgencyRank(NeedingFollowup(leads)[j].urgenciaFollowup)
    ensures forall i, j ::
              0 <= i < j < |NeedingFollowup(leads)| &&
              NeedingFollowup(leads)[i].urgenciaFollowup == NeedingFollowup(leads)[j].urgenciaFollowup ==>
                NeedingFollowup(leads)[i].diasSemResposta >= NeedingFollowup(leads)[j].diasSemResposta
  {
    var r := NeedingFollowup(leads);
    FollowupOrderIsConsistent();
    SortIsSorted(Filter(leads, NeedsFollowup), FollowupOrder());
    forall i, j | 0 <= i < j < |r| ensures FollowupCompare(r[i], r[j]) <= 0 {
      assert FollowupOrder()(r[i], r[j]);
    }
  }

  /** Leads that tie on both keys keep their input order (the sort is stable). */
  lemma NeedingFollowupStable(leads: seq<MockLead>, y: MockLead)
    ensures Ties(NeedingFollowup(leads), y, FollowupOrder()) == Ties(Filter(leads, NeedsFollowup), y, FollowupOrder())
    ensures forall l :: FollowupOrder()(l, y) && FollowupOrder()(y, l) <==>
              l.urgenciaFollowup == y.urgenciaFollowup && l.diasSemResposta == y.diasSemResposta
  {
    FollowupOrderIsConsistent();
    SortIsStable(Filter(leads, NeedsFollowup), y, FollowupOrder());
    forall l ensures FollowupOrder()(l, y) && FollowupOrder()(y, l) <==>
                     l.urgenciaFollowup == y.urgenciaFollowup && l.diasSemResposta == y.diasSemResposta {
      assert UrgencyRank(l.urgenciaFollowup) == UrgencyRank(y.urgenciaFollowup) <==>
             l.urgenciaFollowup == y.urgenciaFollowup;
    }
  }

  // ---------------------------------------------------------------------------
  // getDashboardStats
  // ---------------------------------------------------------------------------

  /** The dashboard counters; the rate is the exact percentage (no `toFixed` rounding). */
  datatype DashboardStats = DashboardStats(
    totalLeads: nat,
    convertidos: nat,
    taxaConversao: real,
    followupsPendentes: nat)

  /** `getDashboardStats()` over `leads`. */
  function GetDashboardStats(leads: seq<MockLead>): DashboardStats
  {
    var total := |leads|;
    var convertidos := |ByStatus(leads, "Convertido")|;
    var pendentes := |Filter(leads, NeedsFollowup)|;
    var taxa := if total > 0 then convertidos as real / total as real * 100.0 else 0.0;
    DashboardStats(total, convertidos, taxa, pendentes)
  }

  /** The counters count leads, so neither exceeds the total; no leads means all zero. */
  lemma DashboardStatsCounts(leads: seq<MockLead>)
    ensures GetDashboardStats(leads).totalLeads == |leads|
    ensures GetDashboardStats(leads).convertidos <= GetDashboardStats(leads).totalLeads
    ensures GetDashboardStats(leads).followupsPendentes <= GetDashboardStats(leads).totalLeads
    ensures leads == [] ==> GetDashboardStats(leads) == DashboardStats(0, 0, 0.0, 0)
  {
    FilterLength(leads, HasStatus("Convertido"));
    FilterLength(leads, NeedsFollowup);
  }

  /**
   * The rate is a percentage of the total, so between 0 and 100, and it is 0 exactly when
   * nothing is converted (in particular when there are no leads).
   */
  lemma DashboardStatsRate(leads: seq<MockLead>)
    ensures 0.0 <= GetDashboardStats(leads).taxaConversao <= 100.0
    ensures GetDashboardStats(leads).taxaConversao == 0.0 <==> GetDashboardStats(leads).convertidos == 0
    ensures GetDashboardStats(leads).taxaConversao * |leads| as real == GetDashboardStats(leads).convertidos as real * 100.0
  {
    FilterLength(leads, HasStatus("Convertido"));
    var s := GetDashboardStats(leads);
    if |leads| > 0 {
      RateFacts(s.convertidos as real, |leads| as real);
    }
  }

  lemma RateFacts(c: real, t: real)
    requires 0.0 <= c <= t && t > 0.0
    ensures 0.0 <= c / t * 100.0 <= 100.0
    ensures c / t * 100.0 == 0.0 <==> c == 0.0
    ensures c / t * 100.0 * t == c * 100.0
  {
    assert c / t <= 1.0 by {
      assert c / t <= t / t;
    }
  }

  // ---------------------------------------------------------------------------
  // getLeadsByStatusDistribution
  // ---------------------------------------------------------------------------

  /** `['Novo', 'Atribuído', 'Contatado', 'Convertido', 'Perdido']` */
  const ReportedStatuses: seq<Status> := [Novo, Atribuido, Contatado, Convertido, Perdido]

  /** `getLeadsByStatusDistribution()` over `leads`. */
  function FixedStatusDistribution(leads: seq<MockLead>): seq<PieSlice>
  {
    seq(|ReportedStatuses|, i requires 0 <= i < |ReportedStatuses| =>
      PieSlice(StatusName(ReportedStatuses[i]), |ByStatus(leads, StatusName(ReportedStatuses[i]))|))
  }

  lemma Sum5(a: nat, b: nat, c: nat, d: nat, e: nat)
    ensures Sum([a, b, c, d, e]) == a + b + c + d + e
  {
    assert [e][1..] == [];
    assert Sum([e]) == e;
    assert [d, e][1..] == [e];
    assert Sum([d, e]) == d + e;
    assert [c, d, e][1..] == [d, e];
    assert Sum([c, d, e]) == c + d + e;
    assert [b, c, d, e][1..] == [c, d, e];
    assert Sum([b, c, d, e]) == b + c + d + e;
    assert [a, b, c, d, e][1..] == [b, c, d, e];
  }

  /** The number of leads whose status is `s`. */
  function Count(leads: seq<MockLead>, s: Status): nat
  {
    |ByStatus(leads, StatusName(s))|
  }

  /** Every lead is counted under exactly one status. */
  lemma {:induction false} CountsPartition(leads: seq<MockLead>)
    ensures Count(leads, Novo) + Count(leads, Atribuido) + Count(leads, Contatado) + Count(leads, Convertido)
            + Count(leads, Perdido) + Count(leads, Invalido) == |leads|
  {
    if |leads| > 0 {
      CountsPartition(leads[1..]);
      forall s: Status ensures Count(leads, s) == (if leads[0].status == s then 1 else 0) + Count(leads[1..], s) {
        StatusNameInjective(leads[0].status, s);
      }
    }
  }

  /**
   * Always the five reported statuses, in that order, each with its exact count (zeros
   * kept); `Inválido` is never reported, so the values add up to the other leads.
   */
  lemma FixedStatusDistributionSpec(leads: seq<MockLead>)
    ensures |FixedStatusDistribution(leads)| == 5
    ensures forall i :: 0 <= i < 5 ==>
              FixedStatusDistribution(leads)[i] == PieSlice(StatusName(ReportedStatuses[i]), Count(leads, ReportedStatuses[i]))
    ensures forall i :: 0 <= i < 5 ==> FixedStatusDistribution(leads)[i].name != "Inválido"
    ensures Sum(SliceValues(FixedStatusDistribution(leads))) == |leads| - Count(leads, Invalido)
  {
    var r := FixedStatusDistribution(leads);
    CountsPartition(leads);
    assert SliceValues(r) == [Count(leads, Novo), Count(leads, Atribuido), Count(leads, Contatado),
                              Count(leads, Convertido), Count(leads, Perdido)];
    Sum5(Count(leads, Novo), Count(leads, Atribuido), Count(leads, Contatado), Count(leads, Convertido),
         Count(leads, Perdido));
  }

  // ---------------------------------------------------------------------------
  // The shipped mock leads
  // ---------------------------------------------------------------------------

  const Lead1 := MockLead("1", "João Silva", "+55 (11) 98765-4321", "joao@email.com", "Direito Penal",
    Novo, Quente, Alta, Web, "1", "Dr. Victor Silveira", 7, "Ligar urgente", FAlta, true,
    "Cliente precisa de defesa criminal urgente", None, "2025-10-08 10:30", "2025-10-08 10:30", "2025-10-08")
  const Lead2 := MockLead("2", "Maria Oliveira", "+55 (11) 91234-5678", "maria@email.com", "Direito de Família",
    Atribuido, Morno, Media, WhatsApp, "1", "Dr. Victor Silveira", 4, "Realizar primeiro contato", FMedia, true,
    "Processo de divórcio consensual", None, "2025-10-11 14:20", "2025-10-11 14:20", "2025-10-11")
  const Lead3 := MockLead("3", "Pedro Santos", "+55 (11) 99876-5432", "pedro@email.com", "Direito Trabalhista",
    Contatado, Quente, Alta, Indicacao, "2", "Dra. Ana Paula Lima", 1, "Aguardar documentos", FNormal, false,
    "Demissão sem justa causa - cálculos trabalhistas", None, "2025-10-14 09:15", "2025-10-14 16:30", "2025-10-14")
  const Lead4 := MockLead("4", "Ana Costa", "+55 (11) 97654-3210", "ana@email.com", "Direito Cível",
    Convertido, Quente, Baixa, Web, "2", "Dra. Ana Paula Lima", 0, "Cliente convertido", FBaixa, false,
    "Ação de cobrança - contrato firmado", None, "2025-10-10 11:00", "2025-10-15 10:00", "2025-10-10")
  const Lead5 := MockLead("5", "Carlos Ferreira", "+55 (11) 96543-2109", "carlos@email.com", "Direito Tributário",
    Novo, Frio, Media, Manual, "2", "Dra. Ana Paula Lima", 5, "Enviar proposta", FMedia, true,
    "Consultoria fiscal para MEI", None, "2025-10-10 15:45", "2025-10-10 15:45", "2025-10-10")
  const Lead6 := MockLead("6", "Juliana Ribeiro", "+55 (11) 95432-1098", "juliana@email.com", "Direito Empresarial",
    Atribuido, Morno, Alta, Web, "3", "Dr. Carlos Mendes", 3, "Agendar reunião", FMedia, true,
    "Abertura de empresa LTDA", None, "2025-10-12 08:30", "2025-10-12 08:30", "2025-10-12")
  const Lead7 := MockLead("7", "Roberto Alves", "+55 (11) 94321-0987", "roberto@email.com", "Direito Penal",
    Perdido, Frio, Baixa, WhatsApp, "1", "Dr. Victor Silveira", 15, "Não respondeu", FBaixa, false,
    "Não retornou contatos", None, "2025-09-30 10:00", "2025-10-05 10:00", "2025-09-30")

  /** `mockLeads` */
  const MockLeads: seq<MockLead> := [Lead1, Lead2, Lead3, Lead4, Lead5, Lead6, Lead7]

  /** Filtering a seven-element sequence, one element at a time. */
  lemma FilterSeven<T>(a: T, b: T, c: T, d: T, e: T, f: T, g: T, p: T -> bool)
    ensures Filter([a, b, c, d, e, f, g], p) ==
              Keep(a, p) + (Keep(b, p) + (Keep(c, p) + (Keep(d, p) + (Keep(e, p) + (Keep(f, p) + Keep(g, p))))))
  {
    FilterCons(g, [], p);
    FilterCons(f, [g], p);
    FilterCons(e, [f, g], p);
    FilterCons(d, [e, f, g], p);
    FilterCons(c, [d, e, f, g], p);
    FilterCons(b, [c, d, e, f, g], p);
    FilterCons(a, [b, c, d, e, f, g], p);
    assert [g] + [] == [g];
    assert [f] + [g] == [f, g];
    assert [e] + [f, g] == [e, f, g];
    assert [d] + [e, f, g] == [d, e, f, g];
    assert [c] + [d, e, f, g] == [c, d, e, f, g];
    assert [b] + [c, d, e, f, g] == [b, c, d, e, f, g];
    assert [a] + [b, c, d, e, f, g] == [a, b, c, d, e, f, g];
  }

  lemma FilterMockLeads(p: MockLead -> bool)
    ensures Filter(MockLeads, p) ==
              Keep(Lead1, p) + (Keep(Lead2, p) + (Keep(Lead3, p) + (Keep(Lead4, p) +
              (Keep(Lead5, p) + (Keep(Lead6, p) + Keep(Lead7, p))))))
  {
    FilterSeven(Lead1, Lead2, Lead3, Lead4, Lead5, Lead6, Lead7, p);
  }

  /** Sorting four elements where the third belongs between the first and the second. */
  lemma SortFour<T>(a: T, b: T, c: T, d: T, le: (T, T) -> bool)
    requires le(a, b) && le(a, c) && !le(b, c) && le(a, d) && le(c, d) && le(b, d)
    ensures StableSort([a, b, c, d], le) == [a, c, b, d]
  {
    var s := [a, b, c, d];
    assert s[..3] == [a, b, c] && s[..3][..2] == [a, b] && s[..3][..2][..1] == [a];
    assert [a][..0] == [];
    assert StableSort([a], le) == [a];
    assert [a][1..] == [] && [a, b][..1] == [a];
    assert Insert(b, [a], le) == [a, b];
    assert StableSort([a, b], le) == [a, b];
    assert [a, b][1..] == [b];
    assert Insert(c, [b], le) == [c, b];
    assert StableSort([a, b, c], le) == [a, c, b];
    assert [a, c, b][1..] == [c, b] && [c, b][1..] == [b] && [b][1..] == [];
    assert Insert(d, [b], le) == [b, d];
    assert Insert(d, [c, b], le) == [c, b, d];
  }

  /** On the shipped data four leads need a follow-up, listed as ids 1, 5, 2, 6. */
  lemma MockFollowupList()
    ensures Filter(MockLeads, NeedsFollowup) == [Lead1, Lead2, Lead5, Lead6]
    ensures NeedingFollowup(MockLeads) == [Lead1, Lead5, Lead2, Lead6]
    ensures Ids(NeedingFollowup(MockLeads)) == ["1", "5", "2", "6"]
  {
    FilterMockLeads(NeedsFollowup);
    var le := FollowupOrder();
    assert le(Lead1, Lead2) && le(Lead1, Lead5) && !le(Lead2, Lead5);
    assert le(Lead1, Lead6) && le(Lead5, Lead6) && le(Lead2, Lead6);
    SortFour(Lead1, Lead2, Lead5, Lead6, le);
  }

  /** On the shipped data: 7 leads, 1 converted (a rate of 100/7 before rounding), 4 to follow up. */
  lemma MockDashboardStats()
    ensures GetDashboardStats(MockLeads) == DashboardStats(7, 1, 100.0 / 7.0, 4)
  {
    FilterMockLeads(NeedsFollowup);
    FilterMockLeads(HasStatus("Convertido"));
  }

  /** On the shipped data the fixed histogram is Novo 2, Atribuído 2, and 1 for each of the others. */
  lemma MockStatusDistribution()
    ensures SliceValues(FixedStatusDistribution(MockLeads)) == [2, 2, 1, 1, 1]
  {
    FilterMockLeads(HasStatus("Novo"));
    FilterMockLeads(HasStatus("Atribuído"));
    FilterMockLeads(HasStatus("Contatado"));
    FilterMockLeads(HasStatus("Convertido"));
    FilterMockLeads(HasStatus("Perdido"));
  }

  /** On the shipped data lawyer "1" has leads 1, 2 and 7, and status "Novo" leads 1 and 5. */
  lemma MockFilters()
    ensures ByAdvogado(MockLeads, "1") == [Lead1, Lead2, Lead7]
    ensures ByStatus(MockLeads, "Novo") == [Lead1, Lead5]
  {
    FilterMockLeads(HasAdvogado("1"));
    FilterMockLeads(HasStatus("Novo"));
  }
}
