/** Records shared by the client (types.ts) and the option lists of the form (constants.ts). */
module Types {

  datatype Option<+T> = None | Some(value: T)

  /** The outcome of an operation that can throw: a value, or the error it raised. */
  datatype Result<+T, +E> = Ok(value: T) | Err(error: E)

  /** `StepStatus`: the top-level state of a title generation session. */
  datatype StepStatus = Idle | Loading | Success | Error

  /** A grounding citation attached to a title in trend mode. */
  datatype Source = Source(title: string, uri: string)

  /** `GeneratedTitle`; `structureUsed` and `sources` are optional in the source. */
  datatype GeneratedTitle = GeneratedTitle(
    title: string,
    explanation: string,
    hookType: string,
    structureUsed: Option<string>,
    sources: Option<seq<Source>>)

  /** `GeneratedScript`: the five parts of a short-video script. */
  datatype GeneratedScript = GeneratedScript(
    title: string,
    mysteryIntensifier: string,
    positioning: string,
    notableContent: string,
    callToAction: string)

  /** `ViralFormData`: the research form, captured as a snapshot at submit time. */
  datatype FormData = FormData(
    niche: string,
    subject: string,
    autoSubject: bool,
    contentType: string,
    objective: string,
    desires: string,
    pains: string,
    fears: string,
    beliefs: string,
    habits: string,
    characteristics: string,
    media: string,
    techniques: string,
    famousPeople: string,
    institutions: string,
    tools: string,
    disruptions: string,
    trigger: string,
    structure: string,
    tone: string,
    useTrends: bool)

  /** The option lists; the first entry of the last four is the "IA Decide" default. */
  const ContentTypes: seq<string> := [
    "Vídeo Curto (Reels/TikTok/Shorts)",
    "Vídeo Longo (YouTube)",
    "Carrossel (Instagram/LinkedIn)",
    "Post Estático / Foto Única",
    "Anúncio (Ads)",
    "Thumbnail (YouTube)",
    "Email / Assunto"
  ]

  const Objectives: seq<string> := [
    "IA Decide (Melhor opção para o público)",
    "Curiosidade Extrema",
    "Alerta / Aviso",
    "Ensino / Tutorial",
    "Provocação / Polêmica",
    "Promessa Forte",
    "Medo / Risco",
    "Identificação Imediata (Reconhecimento)"
  ]

  const Triggers: seq<string> := [
    "IA Decide (Melhor opção para o público)",
    "Recompensa (Sobrevivência/Reprodução)",
    "Mistério (Necessidade de saber)",
    "Disrupção (Violar expectativas)",
    "Reconhecimento (Eu passo por isso)",
    "Crença (Mudar pensamento errado)",
    "Popularidade/Reputação (Efeito Manada/Autoridade)"
  ]

  const Structures: seq<string> := [
    "IA Decide (Melhor Estrutura para os Dados)",
    "Lista Numérica (3 erros que...)",
    "Como [Desejo] sem [Dor]",
    "O Segredo Oculto / A Verdade",
    "Aviso de Perigo (Cuidado...)",
    "Transformação (De X para Y)",
    "Perguntas Frequentes",
    "Comparação (X é melhor que Y)"
  ]

  const Tones: seq<string> := [
    "IA Decide (Melhor opção para o público)",
    "Provocativo",
    "Curioso",
    "Alarmante",
    "Inspiracional",
    "Divertido / Leve",
    "Direto / Objetivo",
    "Empático",
    "Autoritário (Especialista)"
  ]
}
