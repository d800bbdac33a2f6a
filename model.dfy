/**
 * The records the workspace passes around (`CanvasElement`, `DraftItem`,
 * `AISettings`). An optional string field is a plain string whose empty value
 * stands for "absent"; an optional size is an int whose 0 stands for "absent";
 * an optional list is a sequence whose empty value stands for "absent": in
 * every place the source reads these fields it tests them for truthiness, where
 * the two are indistinguishable. `read` keeps its three states, since the
 * source compares it with `=== false`.
 */
module Model {

  datatype Option<T> = None | Some(value: T)

  /** The three kinds of canvas card. */
  datatype CardKind = Guide | Input | Add

  /** A canvas card (`CanvasElement`). */
  datatype Card = Card(
    id: int,
    kind: CardKind,
    title: string,
    subtitle: string,
    content: string,
    image: string,
    width: int,
    height: int)

  datatype Status = Pending | Processed | Published | Archived

  /** A draft record (`DraftItem`). */
  datatype Draft = Draft(
    id: int,
    title: string,
    content: string,
    outline: string,
    image: string,
    tags: seq<string>,
    date: string,
    status: Status,
    canvasData: seq<Card>,
    read: Option<bool>)

  datatype Provider = Gemini | OpenAI | DeepSeek

  /** The AI connection settings (`AISettings`); an empty `baseUrl` or `model` stands for an absent one. */
  datatype Settings = Settings(provider: Provider, apiKey: string, baseUrl: string, model: string)

  /** The views the application shell switches between (`ViewType`). */
  datatype View = Dashboard | Consultation | Inspiration | Workshop | PublishedView | ArchivedView
}
