/**
 * The intermediate-representation translator hook shared by the inference
 * pipeline (src/nl2graph/pipeline/inference.py), the seq2seq generation
 * (src/nl2graph/generation/seq2seq/generation.py) and the seq2seq pipeline
 * (src/nl2graph/seq2seq/pipeline.py): each dispatches on the target
 * language and falls back to the untranslated text.
 */
module Translation {
  import opened Wrappers

  /** The translator's three entry points; `Err` is a raised exception. */
  datatype Translator = Translator(
    toCypher: string -> Result<string, string>,
    toSparql: string -> Result<string, string>,
    toKopl: string -> Result<string, string>)

  /** `_translate_ir`: the translation for the language; the input itself when that raises or the language has none. */
  function TranslateIr(t: Translator, lang: string, ir: string): (q: string)
    ensures lang !in {"cypher", "sparql", "kopl"} ==> q == ir
    ensures lang == "cypher" ==> q == (if t.toCypher(ir).Ok? then t.toCypher(ir).value else ir)
    ensures lang == "sparql" ==> q == (if t.toSparql(ir).Ok? then t.toSparql(ir).value else ir)
    ensures lang == "kopl" ==> q == (if t.toKopl(ir).Ok? then t.toKopl(ir).value else ir)
  {
    var translated :=
      if lang == "cypher" then t.toCypher(ir)
      else if lang == "sparql" then t.toSparql(ir)
      else if lang == "kopl" then t.toKopl(ir)
      else Err("");
    if translated.Ok? then translated.value else ir
  }
}
