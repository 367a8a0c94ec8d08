/**
 * The dashboard page (src/pages/Dashboard.tsx): the all-or-nothing load of its three data
 * sets, the guarded chart series, and the top-three lawyers by conversion rate.
 */
module DashboardPage {
  import opened Wrappers
  import opened Seqs
  import opened Sorting
  import opened Strings
  import opened Types
  import opened Charts
  import opened LeadsQuery
  import opened Api

  const LoadError := "Erro ao carregar dados do dashboard"

  /** The filters the dashboard passes to `getLeads`. */
  const DashboardLeadsFilters := LeadFilters(None, None, None, None, Some(1000))

  // ---------------------------------------------------------------------------
  // topAdvogados
  // ---------------------------------------------------------------------------

  /** The comparator `b.taxa_conversao - a.taxa_conversao`: higher rates first. */
  function ByConversion(): (Advogado, Advogado) -> bool
  {
    (a: Advogado, b: Advogado) => b.taxa_conversao - a.taxa_conversao <= 0.0
  }

  /** `[...advogados].sort(ByConversion)`, before `.slice(0, 3)`. */
  function RankedAdvogados(advogados: seq<Advogado>): seq<Advogado>
  {
    StableSort(advogados, ByConversion())
  }

  /** `topAdvogados` */
  function TopAdvogados(advogados: seq<Advogado>): seq<Advogado>
  {
    var ranked := RankedAdvogados(advogados);
    ranked[..Min(3, |ranked|)]
  }

  lemma ByConversionIsConsistent()
    ensures TotalPreorder(ByConversion())
  {
  }

  /** Three lawyers, or all of them when there are fewer, each taken from the input. */
  lemma TopAdvogadosMembers(advogados: seq<Advogado>)
    ensures |TopAdvogados(advogados)| == Min(3, |advogados|)
    ensures multiset(TopAdvogados(advogados)) <= multiset(advogados)
  {
    var ranked := RankedAdvogados(advogados);
    var k := Min(3, |ranked|);
    SortIsPermutation(advogados, ByConversion());
    assert ranked == ranked[..k] + ranked[k..];
    assert multiset(ranked) == multiset(ranked[..k]) + multiset(ranked[k..]);
  }

  /** The three are in non-increasing order of conversion rate. */
  lemma TopAdvogadosDescending(advogados: seq<Advogado>)
    ensures forall i, j :: 0 <= i < j < |TopAdvogados(advogados)| ==>
              TopAdvogados(advogados)[i].taxa_conversao >= TopAdvogados(advogados)[j].taxa_conversao
  {
    var ranked := RankedAdvogados(advogados);
    var r := TopAdvogados(advogados);
    ByConversionIsConsistent();
    SortIsSorted(advogados, ByConversion());
    forall i, j | 0 <= i < j < |r| ensures r[i].taxa_conversao >= r[j].taxa_conversao {
      assert r[i] == ranked[i] && r[j] == ranked[j];
      assert ByConversion()(ranked[i], ranked[j]);
    }
  }

  /** No lawyer left out has a higher rate than one that is shown. */
  lemma TopAdvogadosAreBest(advogados: seq<Advogado>)
    ensures forall p: Advogado, q: Advogado ::
              p in multiset(advogados) - multiset(TopAdvogados(advogados)) && q in TopAdvogados(advogados) ==>
                p.taxa_conversao <= q.taxa_conversao
  {
    var ranked := RankedAdvogados(advogados);
    var r := TopAdvogados(advogados);
    var k := Min(3, |ranked|);
    ByConversionIsConsistent();
    SortIsPermutation(advogados, ByConversion());
    SortIsSorted(advogados, ByConversion());
    assert ranked == r + ranked[k..];
    assert multiset(ranked) == multiset(r) + multiset(ranked[k..]);
    assert multiset(advogados) - multiset(r) == multiset(ranked[k..]);
    assert r == ranked[..k];
    SortedSplit(ranked, k, ByConversion());
    forall p: Advogado, q: Advogado | p in multiset(advogados) - multiset(r) && q in r
      ensures p.taxa_conversao <= q.taxa_conversao
    {
      assert q in multiset(ranked[..k]);
      assert ByConversion()(q, p);
    }
  }

  /** Lawyers with equal rates appear in backend order (the sort is stable). */
  lemma TopAdvogadosKeepTies(advogados: seq<Advogado>, y: Advogado)
    ensures Ties(TopAdvogados(advogados), y, ByConversion()) <= Ties(advogados, y, ByConversion())
  {
    var ranked := RankedAdvogados(advogados);
    ByConversionIsConsistent();
    SortIsStable(advogados, y, ByConversion());
    TiesPrefix(ranked, Min(3, |ranked|), y, ByConversion());
  }

  // ---------------------------------------------------------------------------
  // The page state and its one load
  // ---------------------------------------------------------------------------

  class Dashboard {
    var summary: Option<DashboardSummary>
    var advogados: seq<Advogado>
    var leads: seq<Lead>
    var loading: bool
    var error: Option<string>

    /** The initial `useState` values. */
    constructor ()
      ensures summary == None && advogados == [] && leads == [] && loading && error == None
    {
      summary := None;
      advogados := [];
      leads := [];
      loading := true;
      error := None;
    }

    /**
     * `loadDashboardData`, given what the three requests delivered. Either all three data
     * sets are replaced and the error cleared, or none is and the error is recorded; the
     * page stops loading either way.
     */
    method LoadDashboardData(
      summaryData: Result<DashboardSummary, ApiFailure>,
      advogadosData: Result<seq<Advogado>, ApiFailure>,
      leadsData: Result<seq<Lead>, ApiFailure>)
      modifies this
      ensures !loading
      ensures summaryData.Success? && advogadosData.Success? && leadsData.Success? ==>
                && summary == Some(summaryData.value)
                && advogados == advogadosData.value
                && leads == leadsData.value
                && error == None
      ensures !(summaryData.Success? && advogadosData.Success? && leadsData.Success?) ==>
                && summary == old(summary)
                && advogados == old(advogados)
                && leads == old(leads)
                && error == Some(LoadError)
    {
      loading := true;
      error := None;
      if summaryData.Success? && advogadosData.Success? && leadsData.Success? {
        summary := Some(summaryData.value);
        advogados := advogadosData.value;
        leads := leadsData.value;
      } else {
        error := Some(LoadError);
      }
      loading := false;
    }

    /**
     * The two chart series, guarded by `leads.length > 0`. The guard changes nothing: the
     * transformers already give empty series for no leads.
     */
    method ChartSeries(format: string -> string, time: string -> int)
      returns (overTime: seq<ChartPoint>, distribution: seq<PieSlice>)
      ensures overTime == LeadsOverTime(leads, format, time)
      ensures distribution == StatusDistribution(leads)
      ensures leads == [] ==> overTime == [] && distribution == []
    {
      if |leads| > 0 {
        overTime := ProcessLeadsOverTime(leads, format, time);
        distribution := ProcessStatusDistribution(leads);
      } else {
        overTime := [];
        distribution := [];
        EmptyCharts(format, time);
      }
    }

    /** The ranking shown beside the charts; the `advogados` state is left as it is. */
    function Top(): seq<Advogado>
      reads this
    {
      TopAdvogados(advogados)
    }
  }

  /** With no leads both transformers give empty series. */
  lemma EmptyCharts(format: string -> string, time: string -> int)
    ensures LeadsOverTime([], format, time) == []
    ensures StatusDistribution([]) == []
  {
    assert TimePoints([], format) == [];
    assert StableSort([], ByTime(time)) == [];
    assert Tally(StatusNames([])) == [];
  }

  /** The dashboard asks for at most 1000 leads: `?limit=1000` and nothing else. */
  lemma DashboardLeadsQuery()
    ensures SelectedParams(Some(DashboardLeadsFilters)) == [("limit", "1000")]
  {
    assert NatToString(1000) == "1000" by {
      assert NatToString(1000) == NatToString(100) + [DigitChar(0)];
      assert NatToString(100) == NatToString(10) + [DigitChar(0)];
      assert NatToString(10) == NatToString(1) + [DigitChar(0)];
    }
    var c := CandidateParams(Some(DashboardLeadsFilters));
    assert c == [("start_date", ""), ("end_date", ""), ("status", ""), ("advogado_id", ""), ("limit", "1000")];
    FilterFive(c[0], c[1], c[2], c[3], c[4]);
  }
}
