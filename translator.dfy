/**
 * The translation shim `server/src/translate/ct2_translator.py`: it picks a
 * backend for one German/English direction (a CTranslate2 engine with a
 * Hugging Face or SentencePiece tokenizer, or a local MarianMT model as the
 * Hugging Face fallback), translates line by line, checks the result for
 * degenerate repetition and emits exactly one result record.
 *
 * Everything the script asks the machine about (installed modules, the
 * environment, existing files and directories, whether a model loads) is a
 * field of `Host`; every call into an engine or tokenizer is a function field
 * of `Engines`, about which nothing is assumed.
 */
module Translator {
  import opened Wrappers
  import opened Strings

  // ---------------------------------------------------------------------
  // Directions, reasons, records
  // ---------------------------------------------------------------------

  datatype Direction = DeEn | EnDe

  /**
   * The two supported ordered pairs, on already lower-cased codes: a
   * direction exists iff the codes are `de` and `en` in some order, and it
   * starts from German iff the source code is `de`.
   */
  function DirectionOf(src: string, tgt: string): (d: Option<Direction>)
    ensures d.Some? <==> {src, tgt} == {"de", "en"}
    ensures d.Some? ==> (d.value == DeEn <==> src == "de")
  {
    if src == "de" && tgt == "en" then Some(DeEn)
    else if src == "en" && tgt == "de" then Some(EnDe)
    else None
  }

  function ModelEnvVar(d: Direction): string {
    match d
    case DeEn => "CT2_MODEL_DE_EN"
    case EnDe => "CT2_MODEL_EN_DE"
  }

  /** The local Hugging Face model directory guessed for a direction. */
  function HfRepo(d: Direction): string {
    match d
    case DeEn => "models/hf/opus-mt-de-en"
    case EnDe => "models/hf/opus-mt-en-de"
  }

  /** The OPUS-MT target-language marker. */
  function TargetTag(d: Direction): string {
    match d
    case DeEn => ">>en<<"
    case EnDe => ">>de<<"
  }

  datatype Reason =
    | UnsupportedDirection
    | ModelPathMissing
    | ModelLoadFailed
    | SpmMissing
    | DepsMissing
    | SpmLoadFailed
    | TranslateFailed

  function ReasonCode(r: Reason): string {
    match r
    case UnsupportedDirection => "unsupported_direction"
    case ModelPathMissing => "model_path_missing"
    case ModelLoadFailed => "model_load_failed"
    case SpmMissing => "spm_missing"
    case DepsMissing => "deps_missing"
    case SpmLoadFailed => "spm_load_failed"
    case TranslateFailed => "translate_failed"
  }

  datatype Provider = Ct2 | Hf | Ct2Hf

  function ProviderTag(p: Provider): string {
    match p
    case Ct2 => "ct2"
    case Hf => "hf"
    case Ct2Hf => "ct2+hf"
  }

  datatype SpMode = Separate | Shared

  /** The one JSON record the script prints. */
  datatype Record =
    | ErrorRecord(translated: string, reason: Reason)
    | SuccessRecord(translated: string, provider: Provider, direction: string, spm: Option<SpMode>)

  /** `meta.provider` of a record: error records always say "ct2". */
  function MetaProvider(r: Record): string {
    match r
    case ErrorRecord(_, _) => "ct2"
    case SuccessRecord(_, p, _, _) => ProviderTag(p)
  }

  /** `safe_error`: an error record that hands the input back untouched. */
  function SafeError(text: string, reason: Reason): (r: Record)
    ensures r.ErrorRecord? && r.translated == text && r.reason == reason
    ensures MetaProvider(r) == "ct2"
  {
    ErrorRecord(text, reason)
  }

  /** A run either prints its record or dies with an uncaught exception. */
  datatype Outcome = Emitted(record: Record) | Crashed

  // ---------------------------------------------------------------------
  // The machine and the engines
  // ---------------------------------------------------------------------

  datatype Host = Host(
    environ: map<string, string>,
    ct2Installed: bool,                       // `import ctranslate2` succeeds
    spmInstalled: bool,                       // `import sentencepiece` succeeds
    transformersInstalled: bool,              // `from transformers import AutoTokenizer` succeeds
    dirs: set<string>,                        // paths for which os.path.isdir holds
    files: set<string>,                       // paths for which os.path.exists holds
    hfTokenizerLoads: bool,                   // AutoTokenizer.from_pretrained(hf_dir) returns
    hfVocab: Option<set<string>>,             // hf_tok.get_vocab(), None when it raises
    ct2Loads: string -> bool,                 // ctranslate2.Translator(path) returns
    spmLoads: string -> bool,                 // SentencePieceProcessor().Load(path) returns
    vocabFile: string -> Option<set<string>>, // json.load of a file, None when reading raises
    marianReady: bool                         // MarianMT import, tokenizer and model loading, torch import
  )

  datatype Engines = Engines(
    /** The tokenizers and detokenizers of one line, None when they raise. */
    hfTokenize: string -> Option<seq<string>>,
    hfDetokenize: seq<string> -> Option<string>,
    spEncode: (string, string) -> Option<seq<string>>,   // (model file, line)
    spDecode: (string, seq<string>) -> Option<string>,   // (model file, pieces)
    /** translate_batch on one line: the best hypothesis, None when it raises. */
    translateBatch: (seq<string>, Option<string>, Ct2Options) -> Option<seq<string>>,
    /** MarianMT tokenize, generate and decode of one line, None when it raises. */
    generate: (string, GenOptions) -> Option<string>,
    /** `re.findall(r"\w+", s)`. */
    findWords: string -> seq<string>
  )

  // ---------------------------------------------------------------------
  // Decoding policies
  // ---------------------------------------------------------------------

  /** CTranslate2 options; penalties are in hundredths. */
  datatype Ct2Options = Ct2Options(
    beamSize: nat, lengthPenaltyPct: nat, maxDecodingLength: nat,
    repetitionPenaltyPct: nat, noRepeatNgramSize: nat, disableUnk: bool, endToken: string)

  /** Generation options of the fallback model; penalties are in hundredths. */
  datatype GenOptions = GenOptions(
    numBeams: nat, earlyStopping: bool, maxNewTokens: nat,
    lengthPenaltyPct: nat, noRepeatNgramSize: nat, repetitionPenaltyPct: nat)


  /**
   * Options of the primary engine for a line of `n` tokens: the decoding
   * length grows as 3n+20 and is clamped to [32, 256].
   */
  function PrimaryOptions(n: nat): (o: Ct2Options)
    ensures 32 <= o.maxDecodingLength <= 256
    ensures n <= 4 ==> o.maxDecodingLength == 32
    ensures 4 <= n <= 78 ==> o.maxDecodingLength == 3 * n + 20
    ensures n >= 79 ==> o.maxDecodingLength == 256
    ensures o.beamSize == 4 && o.noRepeatNgramSize == 3 && o.disableUnk && o.endToken == "</s>"
  {
    Ct2Options(4, 100, Min(256, Max(32, 3 * n + 20)), 110, 3, true, "</s>")
  }

  /**
   * `max_new_tokens` of the fallback model for a line of `chars` characters:
   * int(0.6 * chars + 16) clamped to [16, 64]; 0.6 is taken as the exact 6/10.
   */
  function FallbackMaxNew(chars: nat): (m: nat)
    ensures 16 <= m <= 64
    ensures chars < 80 ==> m == 16 + (6 * chars) / 10
    ensures chars >= 80 ==> m == 64
  {
    Max(16, Min(64, (6 * chars) / 10 + 16))
  }

  /** `_gen_args`: the first, normal attempt. */
  function FallbackOptions(chars: nat): (o: GenOptions)
    ensures o.maxNewTokens == FallbackMaxNew(chars)
    ensures o.numBeams == 5 && o.noRepeatNgramSize == 3
  {
    GenOptions(5, true, FallbackMaxNew(chars), 90, 3, 115)
  }

  /** The strict retry: more beams, stronger penalties, the same length cap. */
  function StrictOptions(first: GenOptions): (o: GenOptions)
    ensures o.maxNewTokens == first.maxNewTokens
    ensures o.numBeams == 6 && o.noRepeatNgramSize == 4
  {
    GenOptions(6, true, first.maxNewTokens, 80, 4, 130)
  }

  lemma FallbackMaxNewMonotone(a: nat, b: nat)
    requires a <= b
    ensures FallbackMaxNew(a) <= FallbackMaxNew(b)
  {
    assert (6 * a) / 10 <= (6 * b) / 10;
  }

  // ---------------------------------------------------------------------
  // Degeneracy detector
  // ---------------------------------------------------------------------

  /** The distinct case-folded words. */
  function FoldedWords(words: seq<string>): set<string> {
    set i | 0 <= i < |words| :: Lower(words[i])
  }

  /**
   * `looks_degenerate` on the words found in a text: never for fewer than 8
   * words; otherwise when distinct/total < 0.35, that is 20*distinct < 7*total.
   */
  function DegenerateWords(words: seq<string>): (r: bool)
    ensures |words| < 8 ==> !r
    ensures r <==> |words| >= 8 && 20 * |FoldedWords(words)| < 7 * |words|
  {
    RatioBelow(|FoldedWords(words)|, Max(1, |words|));
    |words| >= 8 && (|FoldedWords(words)| as real) / (Max(1, |words|) as real) < 0.35
  }

  lemma RatioBelow(u: nat, n: nat)
    requires n > 0
    ensures (u as real) / (n as real) < 0.35 <==> 20 * u < 7 * n
  {
    DivBelow(u as real, n as real, 0.35);
  }

  lemma DivBelow(a: real, b: real, c: real)
    requires b > 0.0
    ensures a / b < c <==> a < c * b
  {
    var q := a / b;
    assert q * b == a;
    if q < c {
      assert q * b < c * b;
    } else {
      assert q * b >= c * b;
    }
  }

  function LooksDegenerate(s: string, eng: Engines): bool {
    DegenerateWords(eng.findWords(s))
  }

  /** Eight or more copies of one word (up to case) are degenerate. */
  lemma RepeatedWordIsDegenerate(words: seq<string>)
    requires |words| >= 8
    requires forall i :: 0 <= i < |words| ==> Lower(words[i]) == Lower(words[0])
    ensures DegenerateWords(words)
  {
    assert FoldedWords(words) == {Lower(words[0])};
  }

  /** Words that stay pairwise different after case folding are never degenerate. */
  lemma DistinctWordsAreNotDegenerate(words: seq<string>)
    requires forall i, j :: 0 <= i < j < |words| ==> Lower(words[i]) != Lower(words[j])
    ensures !DegenerateWords(words)
  {
    FoldedCount(words);
  }

  lemma {:induction false} FoldedCount(words: seq<string>)
    requires forall i, j :: 0 <= i < j < |words| ==> Lower(words[i]) != Lower(words[j])
    ensures |FoldedWords(words)| == |words|
    decreases |words|
  {
    if |words| > 0 {
      var init := words[..|words| - 1];
      var last := Lower(words[|words| - 1]);
      FoldedCount(init);
      assert FoldedWords(words) == FoldedWords(init) + {last} by {
        forall w | w in FoldedWords(words) ensures w in FoldedWords(init) + {last} {
          var i :| 0 <= i < |words| && w == Lower(words[i]);
          if i < |words| - 1 { assert w == Lower(init[i]); }
        }
        forall w | w in FoldedWords(init) ensures w in FoldedWords(words) {
          var i :| 0 <= i < |init| && w == Lower(init[i]);
          assert w == Lower(words[i]);
        }
      }
      assert last !in FoldedWords(init);
    }
  }

  // ---------------------------------------------------------------------
  // Line-wise translation
  // ---------------------------------------------------------------------

  /**
   * What both block translators compute over the lines of a block: blank
   * lines are copied, every other line goes through `f`, and a failing line
   * makes the whole block fail.
   */
  function LineWise(lines: seq<string>, f: string -> Option<string>): Option<seq<string>>
    decreases |lines|
  {
    if |lines| == 0 then Some([])
    else
      var init := lines[..|lines| - 1];
      var ln := lines[|lines| - 1];
      match LineWise(init, f)
      case None => None
      case Some(done) =>
        if IsPyBlank(ln) then Some(done + [ln])
        else match f(ln)
          case None => None
          case Some(t) => Some(done + [t])
  }

  /** One more line that succeeds: the copy of a blank line, or the translation of another. */
  lemma LineWiseStep(lines: seq<string>, i: nat, f: string -> Option<string>, done: seq<string>, t: string)
    requires i < |lines| && LineWise(lines[..i], f) == Some(done)
    requires if IsPyBlank(lines[i]) then t == lines[i] else f(lines[i]) == Some(t)
    ensures LineWise(lines[..i + 1], f) == Some(done + [t])
  {
    assert lines[..i + 1][..i] == lines[..i];
  }

  /** A non-blank line that fails after a prefix that succeeded makes the whole block fail. */
  lemma LineWiseFailsAt(lines: seq<string>, i: nat, f: string -> Option<string>)
    requires i < |lines| && LineWise(lines[..i], f).Some?
    requires !IsPyBlank(lines[i]) && f(lines[i]).None?
    ensures LineWise(lines, f).None?
  {
    assert lines[..i + 1][..i] == lines[..i];
    LineWisePrefixFails(lines, i + 1, f);
  }

  /** Once a prefix of the lines fails, the whole block fails. */
  lemma {:induction false} LineWisePrefixFails(lines: seq<string>, j: nat, f: string -> Option<string>)
    requires j <= |lines| && LineWise(lines[..j], f).None?
    ensures LineWise(lines, f).None?
    decreases |lines|
  {
    if j == |lines| {
      assert lines[..j] == lines;
    } else {
      var init := lines[..|lines| - 1];
      assert init[..j] == lines[..j];
      LineWisePrefixFails(init, j, f);
    }
  }

  /**
   * A line-wise translation fails exactly when some non-blank line fails;
   * otherwise it has one output per line, blank lines copied and every other
   * line replaced by its translation.
   */
  lemma {:induction false} LineWiseFacts(lines: seq<string>, f: string -> Option<string>)
    ensures var r := LineWise(lines, f);
      && (r.Some? <==> forall i :: 0 <= i < |lines| && !IsPyBlank(lines[i]) ==> f(lines[i]).Some?)
      && (r.Some? ==> |r.value| == |lines|)
      && (r.Some? ==> forall i :: 0 <= i < |lines| ==>
            if IsPyBlank(lines[i]) then r.value[i] == lines[i] else f(lines[i]) == Some(r.value[i]))
    decreases |lines|
  {
    if |lines| > 0 {
      var init := lines[..|lines| - 1];
      var ln := lines[|lines| - 1];
      LineWiseFacts(init, f);
      assert forall i :: 0 <= i < |init| ==> init[i] == lines[i];
    }
  }

  /** How a tokenizer is chosen for the primary engine. */
  datatype Ct2Tokenizer =
    | HfTokenizer                           // hf_tok
    | SpTokenizer(srcModel: string, tgtModel: string)  // sp_src / sp_tgt loaded from these files
    | NoTokenizer                           // neither: no tokens, the line comes back as it was

  /** One non-blank line through the primary engine. */
  function Ct2Line(ln: string, tk: Ct2Tokenizer, tag: Option<string>, eng: Engines): Option<string> {
    var encoded := match tk
      case HfTokenizer => eng.hfTokenize(ln)
      case SpTokenizer(s, _) => eng.spEncode(s, ln)
      case NoTokenizer => Some([]);
    match encoded
    case None => None
    case Some(tokens) =>
      match eng.translateBatch(tokens, tag, PrimaryOptions(|tokens|))
      case None => None
      case Some(hyp) =>
        match tk
        case HfTokenizer => eng.hfDetokenize(hyp)
        case SpTokenizer(_, t) => eng.spDecode(t, hyp)
        case NoTokenizer => Some(ln)
  }

  function Ct2Translate(tk: Ct2Tokenizer, tag: Option<string>, eng: Engines): string -> Option<string> {
    ln => Ct2Line(ln, tk, tag, eng)
  }

  /** `translate_block`'s result; None when the engine raised. */
  function Ct2Block(text: string, tk: Ct2Tokenizer, tag: Option<string>, eng: Engines): Option<string> {
    match LineWise(Split(text, '\n'), Ct2Translate(tk, tag, eng))
    case None => None
    case Some(outs) => Some(Join(outs, '\n'))
  }

  /** The body of `translate_block`'s loop for one non-blank line. */
  method Ct2TranslateLine(ln: string, tk: Ct2Tokenizer, tag: Option<string>, eng: Engines)
    returns (r: Option<string>)
    ensures r == Ct2Line(ln, tk, tag, eng)
  {
    var encoded := match tk
      case HfTokenizer => eng.hfTokenize(ln)
      case SpTokenizer(s, _) => eng.spEncode(s, ln)
      case NoTokenizer => Some([]);
    if encoded.None? {
      return None;
    }
    var tokens := encoded.value;
    var options := PrimaryOptions(|tokens|);
    var res := eng.translateBatch(tokens, tag, options);
    if res.None? {
      return None;
    }
    var outToks := res.value;
    r := match tk
      case HfTokenizer => eng.hfDetokenize(outToks)
      case SpTokenizer(_, t) => eng.spDecode(t, outToks)
      case NoTokenizer => Some(ln);
  }

  /** The loop of `translate_block` over the lines of a block; the first failing line ends it. */
  method Ct2TranslateLines(lines: seq<string>, tk: Ct2Tokenizer, tag: Option<string>, eng: Engines)
    returns (outs: Option<seq<string>>)
    ensures outs == LineWise(lines, Ct2Translate(tk, tag, eng))
  {
    ghost var f := Ct2Translate(tk, tag, eng);
    var acc: seq<string> := [];
    var i := 0;
    while i < |lines|
      invariant 0 <= i <= |lines|
      invariant LineWise(lines[..i], f) == Some(acc)
    {
      var r := Ct2Step(lines[i], tk, tag, eng);
      if r.None? {
        LineWiseFailsAt(lines, i, f);
        return None;
      }
      LineWiseStep(lines, i, f, acc, r.value);
      acc := acc + [r.value];
      i := i + 1;
    }
    assert lines[..|lines|] == lines;
    outs := Some(acc);
  }

  /** One line of `translate_block`'s loop: a blank line is kept as it is. */
  method Ct2Step(ln: string, tk: Ct2Tokenizer, tag: Option<string>, eng: Engines)
    returns (r: Option<string>)
    ensures IsPyBlank(ln) ==> r == Some(ln)
    ensures !IsPyBlank(ln) ==> r == Ct2Translate(tk, tag, eng)(ln)
  {
    if IsPyBlank(ln) {
      return Some(ln);
    }
    r := Ct2TranslateLine(ln, tk, tag, eng);
  }

  /** `translate_block`. */
  method TranslateBlock(block: string, tk: Ct2Tokenizer, tag: Option<string>, eng: Engines)
    returns (out: Option<string>)
    ensures out == Ct2Block(block, tk, tag, eng)
  {
    var outs := Ct2TranslateLines(Split(block, '\n'), tk, tag, eng);
    if outs.None? {
      return None;
    }
    out := Some(Join(outs.value, '\n'));
  }

  /** The first, normal attempt of the fallback model on a line. */
  function FirstAttempt(ln: string, eng: Engines): Option<string> {
    eng.generate(ln, FallbackOptions(|ln|))
  }

  /**
   * One non-blank line through the fallback model: a degenerate first result
   * is regenerated once under the strict options, and that result is kept.
   */
  function HfLine(ln: string, eng: Engines): Option<string> {
    match FirstAttempt(ln, eng)
    case None => None
    case Some(t) =>
      if LooksDegenerate(t, eng) then eng.generate(ln, StrictOptions(FallbackOptions(|ln|)))
      else Some(t)
  }

  /**
   * How many `generate` calls a line costs: none for a blank line, a second
   * one exactly when the first result came back degenerate.
   */
  function Attempts(ln: string, eng: Engines): (n: nat)
    ensures n <= 2
    ensures n == 0 <==> IsPyBlank(ln)
    ensures n == 2 <==> !IsPyBlank(ln) && FirstAttempt(ln, eng).Some? &&
                        LooksDegenerate(FirstAttempt(ln, eng).value, eng)
  {
    if IsPyBlank(ln) then 0
    else if FirstAttempt(ln, eng).Some? && LooksDegenerate(FirstAttempt(ln, eng).value, eng) then 2
    else 1
  }

  function HfTranslate(eng: Engines): string -> Option<string> {
    ln => HfLine(ln, eng)
  }

  /** `hf_translate_block`'s result: any failure gives the block back unchanged. */
  function HfBlock(block: string, hfDir: bool, ready: bool, eng: Engines): string {
    if !hfDir || !ready then block
    else match LineWise(Split(block, '\n'), HfTranslate(eng))
      case None => block
      case Some(outs) => Join(outs, '\n')
  }

  /** The body of `hf_translate_block`'s loop for one non-blank line. */
  method HfTranslateLine(ln: string, eng: Engines) returns (r: Option<string>, n: nat)
    requires !IsPyBlank(ln)
    ensures r == HfLine(ln, eng) && n == Attempts(ln, eng)
  {
    var args := FallbackOptions(|ln|);
    r := eng.generate(ln, args);
    n := 1;
    if r.Some? && LooksDegenerate(r.value, eng) {
      r := eng.generate(ln, StrictOptions(args));
      n := 2;
    }
  }

  /**
   * The loop of `hf_translate_block` over the lines of a block; `calls[k]`
   * counts the `generate` calls made for line k. A failing line ends the
   * loop, so the lines after it are never reached.
   */
  method HfTranslateLines(lines: seq<string>, eng: Engines)
    returns (outs: Option<seq<string>>, calls: seq<nat>)
    ensures outs == LineWise(lines, HfTranslate(eng))
    ensures |calls| <= |lines|
    ensures forall k :: 0 <= k < |calls| ==> calls[k] == Attempts(lines[k], eng)
    ensures outs.Some? ==> |calls| == |lines|
  {
    ghost var f := HfTranslate(eng);
    var acc: seq<string> := [];
    calls := [];
    var i := 0;
    while i < |lines|
      invariant 0 <= i <= |lines| && |calls| == i
      invariant LineWise(lines[..i], f) == Some(acc)
      invariant CallsMatch(calls, lines, eng)
    {
      var r, n := HfStep(lines[i], eng);
      CallsStep(calls, lines, eng, n);
      calls := calls + [n];
      if r.None? {
        LineWiseFailsAt(lines, i, f);
        return None, calls;
      }
      LineWiseStep(lines, i, f, acc, r.value);
      acc := acc + [r.value];
      i := i + 1;
    }
    assert lines[..|lines|] == lines;
    outs := Some(acc);
  }

  /** The model calls recorded for the first `|calls|` lines, one entry per line. */
  ghost predicate CallsMatch(calls: seq<nat>, lines: seq<string>, eng: Engines) {
    && |calls| <= |lines|
    && forall k :: 0 <= k < |calls| ==> calls[k] == Attempts(lines[k], eng)
  }

  lemma CallsStep(calls: seq<nat>, lines: seq<string>, eng: Engines, n: nat)
    requires CallsMatch(calls, lines, eng) && |calls| < |lines|
    requires n == Attempts(lines[|calls|], eng)
    ensures CallsMatch(calls + [n], lines, eng)
  {
  }

  /** One line of `hf_translate_block`'s loop: a blank line is kept and costs no call. */
  method HfStep(ln: string, eng: Engines) returns (r: Option<string>, n: nat)
    ensures IsPyBlank(ln) ==> r == Some(ln)
    ensures !IsPyBlank(ln) ==> r == HfTranslate(eng)(ln)
    ensures n == Attempts(ln, eng)
  {
    if IsPyBlank(ln) {
      return Some(ln), 0;
    }
    r, n := HfTranslateLine(ln, eng);
  }

  /** `hf_translate_block`: any failing line gives the block back unchanged. */
  method HfTranslateBlock(block: string, hfDir: bool, host: Host, eng: Engines)
    returns (out: string, calls: seq<nat>)
    ensures out == HfBlock(block, hfDir, host.marianReady, eng)
    ensures |calls| <= |Split(block, '\n')|
    ensures forall k :: 0 <= k < |calls| ==> calls[k] == Attempts(Split(block, '\n')[k], eng)
    ensures hfDir && host.marianReady && out != block ==> |calls| == |Split(block, '\n')|
  {
    calls := [];
    if !host.marianReady || !hfDir {
      return block, calls;
    }
    var outs;
    outs, calls := HfTranslateLines(Split(block, '\n'), eng);
    if outs.None? {
      return block, calls;
    }
    out := Join(outs.value, '\n');
  }

  /**
   * Line structure survives a line-wise translation: one output line per
   * input line, blank lines unchanged at their index, and, when no translated
   * line contains a newline, the joined output splits back into exactly those lines.
   */
  lemma {:induction false} LineStructurePreserved(text: string, f: string -> Option<string>)
    requires LineWise(Split(text, '\n'), f).Some?
    requires var outs := LineWise(Split(text, '\n'), f).value;
      forall i :: 0 <= i < |outs| ==> '\n' !in outs[i]
    ensures var lines := Split(text, '\n');
      var outs := LineWise(lines, f).value;
      && Split(Join(outs, '\n'), '\n') == outs
      && |outs| == |lines|
      && forall i :: 0 <= i < |lines| && IsPyBlank(lines[i]) ==> outs[i] == lines[i]
  {
    LineWiseFacts(Split(text, '\n'), f);
    var outs := LineWise(Split(text, '\n'), f).value;
    SplitJoin(outs, '\n');
  }

  /** Empty input comes back as the empty string from either translator. */
  lemma EmptyInputStaysEmpty(tk: Ct2Tokenizer, tag: Option<string>, hfDir: bool, ready: bool, eng: Engines)
    ensures Ct2Block("", tk, tag, eng) == Some("")
    ensures HfBlock("", hfDir, ready, eng) == ""
  {
    assert Split("", '\n') == [""];
    assert IsPyBlank("");
    assert [""][..0] == [];
  }

  /** A block that is only blank lines is returned verbatim by both translators. */
  lemma {:induction false} BlankBlockUnchanged(text: string, f: string -> Option<string>)
    requires forall i :: 0 <= i < |Split(text, '\n')| ==> IsPyBlank(Split(text, '\n')[i])
    ensures LineWise(Split(text, '\n'), f) == Some(Split(text, '\n'))
    ensures Join(LineWise(Split(text, '\n'), f).value, '\n') == text
  {
    var lines := Split(text, '\n');
    LineWiseFacts(lines, f);
    var outs := LineWise(lines, f).value;
    assert outs == lines;
    JoinSplit(text, '\n');
  }

  // ---------------------------------------------------------------------
  // Setup, as seen from the configuration
  // ---------------------------------------------------------------------

  /** TRANSLATOR_FORCE_HF, default "false", compared case-insensitively with "true". */
  function ForceHf(environ: map<string, string>): (r: bool)
    ensures r ==> "TRANSLATOR_FORCE_HF" in environ
    ensures "TRANSLATOR_FORCE_HF" in environ ==> (r <==> Lower(environ["TRANSLATOR_FORCE_HF"]) == "true")
  {
    Lower(if "TRANSLATOR_FORCE_HF" in environ then environ["TRANSLATOR_FORCE_HF"] else "false") == "true"
  }

  /** `hf_dir` is set: transformers imports and the guessed directory exists. */
  predicate HfDirFound(host: Host, d: Direction) {
    host.transformersInstalled && HfRepo(d) in host.dirs
  }

  /** `hf_tok` is set. */
  predicate HfTokenizerReady(host: Host, d: Direction) {
    HfDirFound(host, d) && host.hfTokenizerLoads
  }

  function ModelPath(host: Host, d: Direction): Option<string> {
    if ModelEnvVar(d) in host.environ then Some(host.environ[ModelEnvVar(d)]) else None
  }

  /** `model_path` is truthy: set and non-empty. */
  predicate ModelPathSet(host: Host, d: Direction) {
    ModelPath(host, d).Some? && ModelPath(host, d).value != ""
  }

  predicate Ct2LoadFails(host: Host, d: Direction) {
    ModelPathSet(host, d) && host.ct2Installed && !host.ct2Loads(ModelPath(host, d).value)
  }

  /** `translator` is not None after setup. */
  predicate Ct2Ready(host: Host, d: Direction) {
    ModelPathSet(host, d) && host.ct2Installed && host.ct2Loads(ModelPath(host, d).value)
  }

  function ModelFile(host: Host, d: Direction, name: string): string
    requires ModelPath(host, d).Some?
  {
    PathJoin(ModelPath(host, d).value, name)
  }

  predicate SeparateSpmFound(host: Host, d: Direction)
    requires ModelPath(host, d).Some?
  {
    ModelFile(host, d, "source.spm") in host.files && ModelFile(host, d, "target.spm") in host.files
  }

  predicate SharedSpmFound(host: Host, d: Direction)
    requires ModelPath(host, d).Some?
  {
    ModelFile(host, d, "spm.model") in host.files
  }

  /** Loading the SentencePiece files that were found raises. */
  predicate SpmLoadFails(host: Host, d: Direction)
    requires ModelPath(host, d).Some?
  {
    if SeparateSpmFound(host, d) then
      !host.spmLoads(ModelFile(host, d, "source.spm")) || !host.spmLoads(ModelFile(host, d, "target.spm"))
    else
      SharedSpmFound(host, d) && !host.spmLoads(ModelFile(host, d, "spm.model"))
  }

  /** Setup gets past the model path and CTranslate2 checks without a Hugging Face tokenizer. */
  predicate ProbesSpm(host: Host, d: Direction) {
    (ModelPathSet(host, d) || HfDirFound(host, d)) && !Ct2LoadFails(host, d) &&
    !HfTokenizerReady(host, d) && ModelPath(host, d).Some?
  }

  /** Every setup check passed. */
  predicate SetupOk(host: Host, d: Direction) {
    (ModelPathSet(host, d) || HfDirFound(host, d)) && !Ct2LoadFails(host, d) &&
    (HfTokenizerReady(host, d) ||
     (ModelPath(host, d).Some? &&
      if host.spmInstalled then
        (SeparateSpmFound(host, d) || SharedSpmFound(host, d)) && !SpmLoadFails(host, d)
      else
        Ct2Ready(host, d)))
  }

  function SpModeOf(host: Host, d: Direction): Option<SpMode> {
    if HfTokenizerReady(host, d) || !host.spmInstalled || ModelPath(host, d).None? then None
    else if SeparateSpmFound(host, d) then Some(Separate)
    else Some(Shared)
  }

  function TokenizerOf(host: Host, d: Direction): Ct2Tokenizer {
    if HfTokenizerReady(host, d) then HfTokenizer
    else if !host.spmInstalled || ModelPath(host, d).None? then NoTokenizer
    else if SeparateSpmFound(host, d) then
      SpTokenizer(ModelFile(host, d, "source.spm"), ModelFile(host, d, "target.spm"))
    else
      SpTokenizer(ModelFile(host, d, "spm.model"), ModelFile(host, d, "spm.model"))
  }

  /**
   * The vocabulary the target tag is looked up in: the Hugging Face
   * tokenizer's, or `shared_vocabulary.json` next to the model; None when it
   * is missing or cannot be read.
   */
  function ActiveVocab(host: Host, d: Direction): Option<set<string>> {
    if HfTokenizerReady(host, d) then host.hfVocab
    else if ModelPath(host, d).None? then None
    else
      var path := ModelFile(host, d, "shared_vocabulary.json");
      if path in host.files then host.vocabFile(path) else None
  }

  /** The target tag is used only when the active vocabulary contains it. */
  function TagOf(host: Host, d: Direction): (tag: Option<string>)
    ensures tag.Some? <==> ActiveVocab(host, d).Some? && TargetTag(d) in ActiveVocab(host, d).value
    ensures tag.Some? ==> tag.value == TargetTag(d)
  {
    var vocab := ActiveVocab(host, d);
    if vocab.Some? && TargetTag(d) in vocab.value then Some(TargetTag(d)) else None
  }

  function DirectionLabel(d: Direction): string {
    match d
    case DeEn => "de->en"
    case EnDe => "en->de"
  }

  // ---------------------------------------------------------------------
  // main
  // ---------------------------------------------------------------------

  /** Where setup ended: a finished run, or what the provider choice needs. */
  datatype Setup =
    | Stopped(outcome: Outcome)
    | Ready(hfDir: bool, translator: bool, tk: Ct2Tokenizer, tag: Option<string>,
            spMode: Option<SpMode>, direction: string)

  /**
   * The SentencePiece half of setup, reached without a Hugging Face tokenizer
   * and with a model path: separate source/target models win over a shared
   * one; without the module the run needs the CTranslate2 engine.
   */
  method LoadSentencePiece(d: Direction, host: Host, translator: bool)
    returns (failure: Option<Reason>, tk: Ct2Tokenizer, spMode: Option<SpMode>)
    requires ModelPath(host, d).Some? && !HfTokenizerReady(host, d)
    ensures failure == Some(SpmLoadFailed) <==> host.spmInstalled && SpmLoadFails(host, d)
    ensures failure == Some(SpmMissing) <==>
      host.spmInstalled && !SeparateSpmFound(host, d) && !SharedSpmFound(host, d)
    ensures failure == Some(DepsMissing) <==> !host.spmInstalled && !translator
    ensures failure.None? <==>
      if host.spmInstalled then (SeparateSpmFound(host, d) || SharedSpmFound(host, d)) && !SpmLoadFails(host, d)
      else translator
    ensures failure.None? ==> tk == TokenizerOf(host, d) && spMode == SpModeOf(host, d)
  {
    var modelPath := ModelPath(host, d).value;
    failure, tk, spMode := None, NoTokenizer, None;
    var srcSpm := PathJoin(modelPath, "source.spm");
    var tgtSpm := PathJoin(modelPath, "target.spm");
    var sharedSpm := PathJoin(modelPath, "spm.model");
    if host.spmInstalled {
      if srcSpm in host.files && tgtSpm in host.files {
        if !host.spmLoads(srcSpm) || !host.spmLoads(tgtSpm) {
          return Some(SpmLoadFailed), tk, spMode;
        }
        spMode := Some(Separate);
        tk := SpTokenizer(srcSpm, tgtSpm);
      } else if sharedSpm in host.files {
        if !host.spmLoads(sharedSpm) {
          return Some(SpmLoadFailed), tk, spMode;
        }
        spMode := Some(Shared);
        tk := SpTokenizer(sharedSpm, sharedSpm);
      } else {
        return Some(SpmMissing), tk, spMode;
      }
    } else if !translator {
      return Some(DepsMissing), tk, spMode;
    }
  }

  /**
   * `detect_lang_tag`, on the Hugging Face vocabulary or on
   * `shared_vocabulary.json`; every failure leaves the tag out.
   */
  method DetectLangTag(d: Direction, host: Host) returns (tag: Option<string>)
    requires HfTokenizerReady(host, d) || ModelPath(host, d).Some?
    ensures tag == TagOf(host, d)
  {
    var want := TargetTag(d);
    tag := None;
    if HfTokenizerReady(host, d) {
      if host.hfVocab.Some? && want in host.hfVocab.value {
        tag := Some(want);
      }
    } else {
      var vocabPath := PathJoin(ModelPath(host, d).value, "shared_vocabulary.json");
      if vocabPath in host.files {
        var vocab := host.vocabFile(vocabPath);
        if vocab.Some? && want in vocab.value {
          tag := Some(want);
        }
      }
    }
  }

  /**
   * The setup half of `main`: direction, Hugging Face directory and
   * tokenizer, model path, CTranslate2 engine, SentencePiece models and the
   * target tag, each failure stopping the run with its reason.
   */
  method Prepare(src: string, tgt: string, text: string, host: Host) returns (st: Setup)
    ensures st.Stopped? && st.outcome.Emitted? ==>
      st.outcome.record.ErrorRecord? && st.outcome.record.translated == text
    ensures st == Stopped(Emitted(ErrorRecord(text, UnsupportedDirection))) <==>
      DirectionOf(Lower(src), Lower(tgt)).None?
    ensures var d := DirectionOf(Lower(src), Lower(tgt));
      st == Stopped(Emitted(ErrorRecord(text, ModelPathMissing))) <==>
      d.Some? && !ModelPathSet(host, d.value) && !HfDirFound(host, d.value)
    ensures var d := DirectionOf(Lower(src), Lower(tgt));
      st == Stopped(Emitted(ErrorRecord(text, ModelLoadFailed))) <==>
      d.Some? && Ct2LoadFails(host, d.value)
    ensures var d := DirectionOf(Lower(src), Lower(tgt));
      st == Stopped(Crashed) <==>
      d.Some? && HfDirFound(host, d.value) && !host.hfTokenizerLoads && ModelPath(host, d.value).None?
    ensures var d := DirectionOf(Lower(src), Lower(tgt));
      st == Stopped(Emitted(ErrorRecord(text, SpmLoadFailed))) <==>
      d.Some? && ProbesSpm(host, d.value) && host.spmInstalled && SpmLoadFails(host, d.value)
    ensures var d := DirectionOf(Lower(src), Lower(tgt));
      st == Stopped(Emitted(ErrorRecord(text, SpmMissing))) <==>
      d.Some? && ProbesSpm(host, d.value) && host.spmInstalled &&
      !SeparateSpmFound(host, d.value) && !SharedSpmFound(host, d.value)
    ensures var d := DirectionOf(Lower(src), Lower(tgt));
      st == Stopped(Emitted(ErrorRecord(text, DepsMissing))) <==>
      d.Some? && ProbesSpm(host, d.value) && !host.spmInstalled && !Ct2Ready(host, d.value)
    ensures var d := DirectionOf(Lower(src), Lower(tgt));
      st.Ready? <==> d.Some? && SetupOk(host, d.value)
    ensures var d := DirectionOf(Lower(src), Lower(tgt));
      st.Ready? ==> d.Some? && st == Ready(HfDirFound(host, d.value), Ct2Ready(host, d.value), TokenizerOf(host, d.value),
                  TagOf(host, d.value), SpModeOf(host, d.value), DirectionLabel(d.value))
  {
    var s, t := Lower(src), Lower(tgt);
    var dir := DirectionOf(s, t);

    // Hugging Face model directory and tokenizer
    var hfDir := false;
    var hfTok := false;
    if host.transformersInstalled && dir.Some? && HfRepo(dir.value) in host.dirs {
      hfDir := true;
      hfTok := host.hfTokenizerLoads;
    }

    if dir.None? {
      return Stopped(Emitted(SafeError(text, UnsupportedDirection)));
    }
    var d := dir.value;

    var modelPath: Option<string> :=
      if ModelEnvVar(d) in host.environ then Some(host.environ[ModelEnvVar(d)]) else None;
    var pathSet := modelPath.Some? && modelPath.value != "";
    if !pathSet && !hfDir {
      return Stopped(Emitted(SafeError(text, ModelPathMissing)));
    }

    var translator := false;
    if host.ct2Installed && pathSet {
      if !host.ct2Loads(modelPath.value) {
        return Stopped(Emitted(SafeError(text, ModelLoadFailed)));
      }
      translator := true;
    }

    // SentencePiece models, when there is no Hugging Face tokenizer
    var spMode: Option<SpMode> := None;
    var tk: Ct2Tokenizer := HfTokenizer;
    if !hfTok {
      if modelPath.None? {
        // os.path.join(None, ...) raises outside any try
        return Stopped(Crashed);
      }
      var failure;
      failure, tk, spMode := LoadSentencePiece(d, host, translator);
      if failure.Some? {
        return Stopped(Emitted(SafeError(text, failure.value)));
      }
    }

    var tag := DetectLangTag(d, host);
    st := Ready(hfDir, translator, tk, tag, spMode, s + "->" + t);
  }

  /**
   * `main` for the codes `src`/`tgt` and the standard input `text`: setup
   * first, whose checks all come before the force flag; then the provider.
   */
  method Run(src: string, tgt: string, text: string, host: Host, eng: Engines) returns (out: Outcome)
    // every error record hands back the input
    ensures out.Emitted? && out.record.ErrorRecord? ==> out.record.translated == text
    // setup errors, in the order they are checked
    ensures out == Emitted(ErrorRecord(text, UnsupportedDirection)) <==>
      DirectionOf(Lower(src), Lower(tgt)).None?
    ensures var d := DirectionOf(Lower(src), Lower(tgt));
      out == Emitted(ErrorRecord(text, ModelPathMissing)) <==>
      d.Some? && !ModelPathSet(host, d.value) && !HfDirFound(host, d.value)
    ensures var d := DirectionOf(Lower(src), Lower(tgt));
      out == Emitted(ErrorRecord(text, ModelLoadFailed)) <==>
      d.Some? && Ct2LoadFails(host, d.value)
    ensures var d := DirectionOf(Lower(src), Lower(tgt));
      out == Crashed <==>
      d.Some? && HfDirFound(host, d.value) && !host.hfTokenizerLoads && ModelPath(host, d.value).None?
    ensures var d := DirectionOf(Lower(src), Lower(tgt));
      out == Emitted(ErrorRecord(text, SpmLoadFailed)) <==>
      d.Some? && ProbesSpm(host, d.value) && host.spmInstalled && SpmLoadFails(host, d.value)
    ensures var d := DirectionOf(Lower(src), Lower(tgt));
      out == Emitted(ErrorRecord(text, SpmMissing)) <==>
      d.Some? && ProbesSpm(host, d.value) && host.spmInstalled &&
      !SeparateSpmFound(host, d.value) && !SharedSpmFound(host, d.value)
    ensures var d := DirectionOf(Lower(src), Lower(tgt));
      out == Emitted(ErrorRecord(text, DepsMissing)) <==>
      d.Some? &&
      ((ProbesSpm(host, d.value) && !host.spmInstalled && !Ct2Ready(host, d.value)) ||
       (SetupOk(host, d.value) && !Ct2Ready(host, d.value) && !HfDirFound(host, d.value)))
    // provider choice
    ensures var d := DirectionOf(Lower(src), Lower(tgt));
      d.Some? && SetupOk(host, d.value) && ForceHf(host.environ) && HfDirFound(host, d.value) ==>
      out == Emitted(SuccessRecord(HfBlock(text, true, host.marianReady, eng), Hf, DirectionLabel(d.value), None))
    ensures var d := DirectionOf(Lower(src), Lower(tgt));
      d.Some? && SetupOk(host, d.value) && !(ForceHf(host.environ) && HfDirFound(host, d.value)) &&
      Ct2Ready(host, d.value) ==>
      var D := d.value;
      var hf := HfDirFound(host, D);
      var primary := Ct2Block(text, TokenizerOf(host, D), TagOf(host, D), eng);
      var fallback := HfBlock(text, true, host.marianReady, eng);
      out == Emitted(
        if primary.Some? && !(hf && LooksDegenerate(primary.value, eng)) then
          SuccessRecord(primary.value, Ct2, DirectionLabel(D), SpModeOf(host, D))
        else if primary.Some? then
          SuccessRecord(fallback, Ct2Hf, DirectionLabel(D), SpModeOf(host, D))
        else if hf then
          SuccessRecord(fallback, Hf, DirectionLabel(D), SpModeOf(host, D))
        else
          ErrorRecord(text, TranslateFailed))
    ensures var d := DirectionOf(Lower(src), Lower(tgt));
      d.Some? && SetupOk(host, d.value) && !(ForceHf(host.environ) && HfDirFound(host, d.value)) &&
      !Ct2Ready(host, d.value) && HfDirFound(host, d.value) ==>
      out == Emitted(SuccessRecord(HfBlock(text, true, host.marianReady, eng), Hf,
                                   DirectionLabel(d.value), SpModeOf(host, d.value)))
  {
    var st := Prepare(src, tgt, text, host);
    if st.Stopped? {
      return st.outcome;
    }
    var calls: seq<nat>;
    var translated: string;
    var prov: Provider;
    if ForceHf(host.environ) && st.hfDir {
      translated, calls := HfTranslateBlock(text, true, host, eng);
      return Emitted(SuccessRecord(translated, Hf, st.direction, None));
    }
    if st.translator {
      var primary := TranslateBlock(text, st.tk, st.tag, eng);
      if primary.Some? {
        if st.hfDir && LooksDegenerate(primary.value, eng) {
          translated, calls := HfTranslateBlock(text, true, host, eng);
          prov := Ct2Hf;
        } else {
          translated := primary.value;
          prov := Ct2;
        }
      } else if st.hfDir {
        // translate_block raised: fall back to the local model
        translated, calls := HfTranslateBlock(text, true, host, eng);
        prov := Hf;
      } else {
        return Emitted(SafeError(text, TranslateFailed));
      }
    } else if st.hfDir {
      translated, calls := HfTranslateBlock(text, true, host, eng);
      prov := Hf;
    } else {
      return Emitted(SafeError(text, DepsMissing));
    }
    out := Emitted(SuccessRecord(translated, prov, st.direction, st.spMode));
  }
}
