/** The records and enumerations the application passes between its components (types.ts).
    They hold no logic of their own; the enum members carry the label strings that the
    TypeScript enums use as their values, because those labels are what the draft prompt
    interpolates. */
module Types {

  datatype Option<+T> = None | Some(value: T)

  function Min(a: int, b: int): int {
    if a <= b then a else b
  }

  /** Writing style requested for a draft. */
  datatype Tone = Academic | Casual | Enthusiastic

  function ToneLabel(t: Tone): string {
    match t
    case Academic => "Professional Academic"
    case Casual => "General Public/Casual"
    case Enthusiastic => "Marketing/Enthusiastic"
  }

  /** Target length band requested for a draft. */
  datatype Length = Short | Standard | Deep

  function LengthLabel(l: Length): string {
    match l
    case Short => "Short (500 words)"
    case Standard => "Standard (500-1000 words)"
    case Deep => "Deep Dive (1000-2000 words)"
  }

  /** Distinct enum members have labels that differ within their first two characters, so the
      label in a prompt identifies the member. */
  lemma LabelsDifferEarly(t1: Tone, t2: Tone, l1: Length, l2: Length)
    ensures t1 != t2 ==> ToneLabel(t1)[0] != ToneLabel(t2)[0]
    ensures l1 != l2 ==> LengthLabel(l1)[0] != LengthLabel(l2)[0] || LengthLabel(l1)[1] != LengthLabel(l2)[1]
  {
  }

  /** What the wizard collects; dateRange is free text in the type, chosen from three buttons in the UI. */
  datatype GeneratorConfig = GeneratorConfig(keywords: string, dateRange: string, tone: Tone, length: Length)

  /** Who wrote a chat entry: the user, or the model (the assistant side). */
  datatype Role = User | Model

  datatype ChatMessage = ChatMessage(role: Role, text: string)

  datatype Source = Source(title: string, url: string)

  /** A drafted article; content is an HTML fragment. */
  datatype BlogPost = BlogPost(title: string, content: string, tags: seq<string>, sources: seq<Source>)
}
