/** src/components/ChatInterface.tsx: how each chat message is rendered and
    when the Send button is disabled. The Markdown renderer the artifact
    stripper hands its text to is a parameter. */
module ChatInterface {
  import opened Base
  import opened JsonModel
  import HtmlEscape
  import ShoppingPayload
  import ProductSections

  datatype Role = User | Assistant

  /** `ChatMessage` of the interface. */
  datatype UiMessage = UiMessage(id: string, role: Role, content: string)

  /** The oracles rendering depends on: `JSON.parse`, `Number` on price
      text, and `marked.parse`. */
  datatype Renderers = Renderers(parse: Parser, toNumber: string -> Option<Num>, markdown: string -> string)

  /** What a message bubble holds. A remainder is shown only when it is
      non-empty. */
  datatype Bubble =
    | EscapedText(html: string)
    | ShoppingBubble(remainderHtml: Option<string>, products: seq<ShoppingPayload.ShoppingProduct>)
    | SectionsBubble(remainderHtml: Option<string>, sections: seq<ProductSections.ProductSection>)
    | MarkdownBubble(html: string)

  /** `formatAssistantContent`. */
  function FormatAssistantContent(content: string, env: Renderers): string {
    env.markdown(ShoppingPayload.StripToolArtifacts(content))
  }

  /** `remainder && <div ...>`: nothing for the empty remainder. */
  function RemainderHtml(remainder: string, env: Renderers): Option<string> {
    if remainder == "" then None else Some(FormatAssistantContent(remainder, env))
  }

  /** The body of `messages.map(...)` for one message. */
  function RenderMessage(m: UiMessage, env: Renderers): Bubble {
    if m.role == User then EscapedText(HtmlEscape.EscapeHtml(m.content))
    else
      match ShoppingPayload.ShoppingPayloadOf(m.content, env.parse, env.toNumber)
      case Some((products, remainder)) => ShoppingBubble(RemainderHtml(remainder, env), products)
      case None =>
        match ProductSections.ProductSectionsOf(m.content)
        case Some((sections, remainder)) => SectionsBubble(RemainderHtml(remainder, env), sections)
        case None => MarkdownBubble(FormatAssistantContent(m.content, env))
  }

  /** One bubble per message, in order. */
  function RenderMessages(messages: seq<UiMessage>, env: Renderers): (r: seq<Bubble>)
    ensures |r| == |messages|
    ensures forall i :: 0 <= i < |messages| ==> r[i] == RenderMessage(messages[i], env)
  {
    seq(|messages|, i requires 0 <= i < |messages| => RenderMessage(messages[i], env))
  }

  /** User text is always escaped and so can carry no markup, and is never
      parsed; an assistant reply goes to the shopping parser first, to the
      product-section parser only when that finds nothing, and to plain
      Markdown only when both find nothing. */
  lemma RenderDispatch(m: UiMessage, env: Renderers)
    ensures var b := RenderMessage(m, env);
      && (m.role == User <==> b.EscapedText?)
      && (b.EscapedText? ==>
            && HtmlEscape.Unescape(b.html) == m.content
            && '<' !in b.html && '>' !in b.html && '"' !in b.html && '\'' !in b.html)
      && (m.role == Assistant ==>
            var shopping := ShoppingPayload.ShoppingPayloadOf(m.content, env.parse, env.toNumber);
            var sections := ProductSections.ProductSectionsOf(m.content);
            && (b.ShoppingBubble? <==> shopping.Some?)
            && (b.SectionsBubble? <==> shopping.None? && sections.Some?)
            && (b.MarkdownBubble? <==> shopping.None? && sections.None?)
            && (b.ShoppingBubble? ==>
                  b.products == shopping.value.0 && b.products != []
                  && (b.remainderHtml.None? <==> shopping.value.1 == ""))
            && (b.SectionsBubble? ==>
                  b.sections == sections.value.0 && (b.remainderHtml.None? <==> sections.value.1 == ""))
            && (b.MarkdownBubble? ==> b.html == env.markdown(ShoppingPayload.StripToolArtifacts(m.content))))
  {
    if m.role == User {
      HtmlEscape.EscapeHtmlHasNoMarkup(m.content);
      HtmlEscape.UnescapeEscapeHtml(m.content);
    }
  }

  /** `isLoading || !inputValue.trim()`. */
  predicate SendDisabled(isLoading: bool, inputValue: string) {
    isLoading || JsTrim(inputValue) == ""
  }

  /** Send is enabled exactly when nothing is loading and the input holds a
      character other than whitespace. */
  lemma SendDisabledMeaning(isLoading: bool, inputValue: string)
    ensures !SendDisabled(isLoading, inputValue) <==>
      !isLoading && exists i :: 0 <= i < |inputValue| && inputValue[i] !in JsWhitespace
  {
    TrimFacts(inputValue, JsWhitespace);
  }
}
