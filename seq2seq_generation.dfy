/**
 * The translator hook of the seq2seq `Generation`
 * (src/nl2graph/generation/seq2seq/generation.py): the decoded model
 * output, translated from the intermediate representation when a
 * translator is set. Tokenising and decoding are one oracle, `decode`.
 */
module Seq2SeqGeneration {
  import opened Wrappers
  import DataEntity
  import Translation

  class Generation {
    /** The model's decoded output for a question. */
    const decode: string -> string
    const translator: Option<Translation.Translator>
    const lang: string

    /** `lang` defaults to "cypher" and `translator` to None. */
    constructor (decode: string -> string, translator: Option<Translation.Translator>, lang: string)
      ensures this.decode == decode && this.translator == translator && this.lang == lang
    {
      this.decode := decode;
      this.translator := translator;
      this.lang := lang;
    }

    /** `generate`: the decoded text, run through `_translate_ir` only when a translator is set; no stats. */
    function Generate(question: string): (o: DataEntity.GenerationOutput)
      ensures o.stats.None?
      ensures translator.None? ==> o.content == decode(question)
      ensures translator.Some? ==> o.content == Translation.TranslateIr(translator.value, lang, decode(question))
    {
      var content := decode(question);
      DataEntity.GenerationOutput(if translator.Some? then Translation.TranslateIr(translator.value, lang, content) else content, None)
    }
  }

  /** A language without a translation keeps the decoded text, translator or not. */
  lemma OtherLanguageKeepsDecoded(g: Generation, question: string)
    requires g.lang !in {"cypher", "sparql", "kopl"}
    ensures g.Generate(question).content == g.decode(question)
  {
  }

  /** A translator that raises leaves the decoded text, for every language. */
  lemma FailingTranslatorKeepsDecoded(g: Generation, question: string)
    requires g.translator.Some?
    requires g.translator.value.toCypher(g.decode(question)).Err?
    requires g.translator.value.toSparql(g.decode(question)).Err?
    requires g.translator.value.toKopl(g.decode(question)).Err?
    ensures g.Generate(question).content == g.decode(question)
  {
  }
}
