/** The search box and status filter of the leads page (src/pages/Leads.tsx). */
module LeadsPage {
  import opened Seqs
  import opened Strings
  import opened Types

  /** The status filter value that shows every lead. */
  const AllStatuses := "Todos"

  /** The values the status selector offers: "Todos" and five statuses, not "Inválido". */
  const StatusOptions: seq<string> := [AllStatuses, "Novo", "Atribuído", "Contatado", "Convertido", "Perdido"]

  /**
   * Name or e-mail contains the term, both lowered by `lower` (`toLowerCase`), or the raw
   * phone contains the raw term.
   */
  predicate MatchesSearch(lead: Lead, searchTerm: string, lower: string -> string)
  {
    || Includes(lower(lead.cliente_nome), lower(searchTerm))
    || Includes(lead.cliente_telefone, searchTerm)
    || Includes(lower(lead.cliente_email), lower(searchTerm))
  }

  predicate MatchesStatus(lead: Lead, statusFilter: string)
  {
    statusFilter == AllStatuses || StatusName(lead.status) == statusFilter
  }

  function Shown(searchTerm: string, statusFilter: string, lower: string -> string): Lead -> bool
  {
    (lead: Lead) => MatchesSearch(lead, searchTerm, lower) && MatchesStatus(lead, statusFilter)
  }

  /** `filteredLeads` */
  function FilteredLeads(leads: seq<Lead>, searchTerm: string, statusFilter: string, lower: string -> string): seq<Lead>
  {
    Filter(leads, Shown(searchTerm, statusFilter, lower))
  }

  /**
   * The shown leads are the leads, in order, that match both the search and the status; so
   * "Mostrando n de m" has n <= m.
   */
  lemma FilteredLeadsSpec(leads: seq<Lead>, searchTerm: string, statusFilter: string, lower: string -> string)
    ensures IsSubsequence(FilteredLeads(leads, searchTerm, statusFilter, lower), leads)
    ensures |FilteredLeads(leads, searchTerm, statusFilter, lower)| <= |leads|
    ensures forall l :: l in FilteredLeads(leads, searchTerm, statusFilter, lower) <==>
              l in leads && MatchesSearch(l, searchTerm, lower) && MatchesStatus(l, statusFilter)
  {
    var p := Shown(searchTerm, statusFilter, lower);
    FilterSubsequence(leads, p);
    FilterLength(leads, p);
    FilterMembers(leads, p);
  }

  /** With an empty search and "Todos" every lead is shown, in order. */
  lemma EmptySearchShowsAll(leads: seq<Lead>, lower: string -> string)
    ensures FilteredLeads(leads, "", AllStatuses, lower) == leads
  {
    forall l | l in leads ensures Shown("", AllStatuses, lower)(l) {
      IncludesEmpty(l.cliente_telefone);
    }
    FilterAllKept(leads, Shown("", AllStatuses, lower));
  }

  /** Any other filter shows only leads of exactly that status. */
  lemma StatusFilterIsExact(leads: seq<Lead>, searchTerm: string, statusFilter: string, lower: string -> string)
    requires statusFilter != AllStatuses
    ensures forall l :: l in FilteredLeads(leads, searchTerm, statusFilter, lower) ==> StatusName(l.status) == statusFilter
  {
    FilterMembers(leads, Shown(searchTerm, statusFilter, lower));
  }

  /** No offered option but "Todos" shows an "Inválido" lead; under "Todos" it is shown when it matches. */
  lemma InvalidOnlyUnderAll(leads: seq<Lead>, searchTerm: string, lower: string -> string)
    ensures forall opt, l: Lead :: opt in StatusOptions && opt != AllStatuses && l.status == Invalido ==>
              l !in FilteredLeads(leads, searchTerm, opt, lower)
    ensures forall l :: l in leads && l.status == Invalido && MatchesSearch(l, searchTerm, lower) ==>
              l in FilteredLeads(leads, searchTerm, AllStatuses, lower)
  {
    forall opt | opt in StatusOptions && opt != AllStatuses
      ensures forall l: Lead :: l.status == Invalido ==> l !in FilteredLeads(leads, searchTerm, opt, lower)
    {
      FilterMembers(leads, Shown(searchTerm, opt, lower));
    }
    FilterMembers(leads, Shown(searchTerm, AllStatuses, lower));
  }

  /** The phone is searched raw: a term found in it matches whatever `lower` does. */
  lemma PhoneSearchIsRaw(lead: Lead, searchTerm: string, statusFilter: string, lower: string -> string)
    requires Includes(lead.cliente_telefone, searchTerm) && MatchesStatus(lead, statusFilter)
    ensures Shown(searchTerm, statusFilter, lower)(lead)
  {
  }

  /** ... and is not normalised: the digits typed without the dash do not match the phone. */
  lemma PhoneSearchNotNormalised()
    ensures !Includes("98765-4321", "987654321")
  {
    var phone := "98765-4321";
    var term := "987654321";
    assert !IsPrefix(term, phone) by {
      assert phone[..|term|][5] == '-' && term[5] == '4';
    }
    assert !IsPrefix(term, phone[1..]) by {
      assert phone[1..][..|term|][0] == '8' && term[0] == '9';
    }
    IncludesTooShort(phone[1..][1..], term);
  }
}
