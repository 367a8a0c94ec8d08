/** The record shapes the backend returns (src/lib/types.ts). */
module Types {
  import opened Wrappers

  /** Lead lifecycle status; `StatusName` is the string the backend and the views use. */
  datatype Status = Novo | Atribuido | Contatado | Convertido | Perdido | Invalido

  function StatusName(s: Status): string
  {
    match s
    case Novo => "Novo"
    case Atribuido => "Atribuído"
    case Contatado => "Contatado"
    case Convertido => "Convertido"
    case Perdido => "Perdido"
    case Invalido => "Inválido"
  }

  /** Distinct statuses have distinct names, so comparing names compares statuses. */
  lemma StatusNameInjective(a: Status, b: Status)
    ensures StatusName(a) == StatusName(b) <==> a == b
  {
  }

  datatype Temperature = Quente | Morno | Frio

  datatype Urgency = Alta | Media | Baixa

  datatype FollowupUrgency = FAlta | FMedia | FNormal | FBaixa

  /** `precisa_followup: 'Sim' | 'Não'` */
  datatype YesNo = Sim | Nao

  datatype Lead = Lead(
    lead_id: string,
    cliente_nome: string,
    cliente_telefone: string,
    cliente_email: string,
    advogado_id: string,
    advogado_nome: string,
    status: Status,
    areas_available: string,
    lead_temperature: Temperature,
    urgency: Urgency,
    source: string,
    descricao: string,
    dias_sem_resposta: int,
    proxima_acao: string,
    urgencia_followup: FollowupUrgency,
    precisa_followup: YesNo,
    data_evento: string,
    created_at: string,
    updated_at: string,
    dias_desde_criacao: int)

  datatype Advogado = Advogado(
    advogado_id: string,
    nome: string,
    telefone: string,
    email: Option<string>,
    foto: Option<string>,
    especialidades: string,
    areas_atuacao: string,
    status: string,
    total_leads: int,
    leads_novos: int,
    leads_em_andamento: int,
    leads_convertidos: int,
    leads_perdidos: int,
    leads_precisam_followup: int,
    taxa_conversao: real,
    taxa_resposta: real,
    tempo_medio_resposta: string)

  datatype NotificationStatus = NotificationStatus(respondidos: int, nao_respondidos: int)

  datatype DashboardSummary = DashboardSummary(
    total_leads: int,
    total_advogados: int,
    taxa_resposta: real,
    taxa_conversao: real,
    leads_novos: int,
    leads_convertidos: int,
    leads_perdidos: int,
    leads_em_andamento: int,
    leads_precisam_followup: int,
    distribuicao_status: map<string, int>,
    notificacao_status: NotificationStatus)
}
