/**
 * `QueryGenerator` (src/nl2graph/pipeline/generator.py): renders the prompt
 * template for a question, sends it to the chat model and keeps both the
 * reply and the query extracted from it. The chat client of the configured
 * provider and model is an oracle (`Err` is a raised exception); the
 * extraction is the one the inference pipeline uses, with the same two
 * patterns.
 */
module QueryGenerators {
  import opened Wrappers
  import opened Strs
  import opened Templates
  import opened QueryExtraction
  import opened PipelineEntity

  /** The chat client's reply content to a single user message. */
  type Chat = string -> Result<string, string>

  class QueryGenerator {
    const chat: Chat
    const templates: TemplateService
    const lang: string
    const promptTemplate: string

    constructor (chat: Chat, templates: TemplateService, lang: string, promptTemplate: string)
      ensures this.chat == chat && this.templates == templates && this.lang == lang && this.promptTemplate == promptTemplate
    {
      this.chat := chat;
      this.templates := templates;
      this.lang := lang;
      this.promptTemplate := promptTemplate;
    }

    /** The keyword arguments of the prompt. */
    function Vars(question: string, schemaText: string): map<string, string>
    {
      map["question" := question, "schema" := schemaText, "lang" := lang]
    }

    /**
     * `generate`: a failing render or chat call propagates; otherwise the raw
     * reply and its extracted query, which never has surrounding whitespace.
     */
    function Generate(question: string, schemaText: string): (r: Result<GenerationResult, string>)
      ensures var prompt := templates.Render("prompts", promptTemplate, Vars(question, schemaText));
        && (prompt.Err? ==> r == Err(prompt.error))
        && (prompt.Ok? && chat(prompt.value).Err? ==> r == Err(chat(prompt.value).error))
        && (prompt.Ok? && chat(prompt.value).Ok? ==>
              r == Ok(GenerationResult(Some(chat(prompt.value).value), Some(ExtractQuery(chat(prompt.value).value)))))
      ensures r.Ok? ==> r.value.queryRaw.Some? && r.value.queryProcessed.Some?
      ensures r.Ok? ==> var q := r.value.queryProcessed.value; q == [] || (!IsSpace(q[0]) && !IsSpace(q[|q| - 1]))
    {
      match templates.Render("prompts", promptTemplate, Vars(question, schemaText))
      case Err(e) => Err(e)
      case Ok(prompt) =>
        match chat(prompt)
        case Err(e) => Err(e)
        case Ok(raw) => Ok(GenerationResult(Some(raw), Some(ExtractQuery(raw))))
    }
  }
}
