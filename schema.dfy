/** The record shapes of convex/schema.ts that the core reads and writes. */
module Schema {
  import opened Common

  type UserId = string
  type ChatId = nat

  /**
   * The five credential providers. They are both the optional fields of an
   * `apiKeys` row and the entries of `modelAPIs` in models.ts.
   */
  datatype Provider = OpenAI | Groq | Anthropic | Google | OpenRouter {
    /** The field name in an `apiKeys` row and the `provider` of a preview. */
    function Name(): string {
      match this
      case OpenAI => "openai"
      case Groq => "groq"
      case Anthropic => "anthropic"
      case Google => "google"
      case OpenRouter => "openrouter"
    }

    /** The position of the provider in ProviderOrder. */
    function Rank(): nat {
      match this
      case OpenAI => 0
      case Groq => 1
      case Anthropic => 2
      case Google => 3
      case OpenRouter => 4
    }

    /** The badge in `modelAPIs`. */
    function Badge(): string {
      match this
      case OpenAI => "OpenAI"
      case Groq => "Groq"
      case Anthropic => "Anthropic"
      case Google => "Google"
      case OpenRouter => "OpenRouter"
    }
  }

  /** The order in which the key handlers visit the fields. */
  const ProviderOrder: seq<Provider> := [OpenAI, Groq, Anthropic, Google, OpenRouter]

  /** The optional provider fields of an `apiKeys` row (an absent field is not in the map). */
  type KeyFields = map<Provider, string>

  /** A row of the `chats` table; `creationTime` is Convex's `_creationTime`. */
  datatype Chat = Chat(id: ChatId, creationTime: int, title: string, userId: UserId)
}
