/** The mode catalog of prompts.py: a fixed, ordered map from mode name to
    the system instruction sent with every request in that mode. */
module Prompts {
  import opened Base
  import opened Strings
  import Evaluator

  /** MODES in insertion order. */
  const Catalog: seq<(string, string)> := [
    ("concise",
     "You are a concise assistant. Provide the direct answer first, keep it short, "
     + "and use only essential detail."),
    ("detailed",
     "You are a detailed assistant. Explain clearly with structured depth, practical "
     + "context, and helpful examples when useful."),
    ("creative",
     "You are a creative assistant. Offer original, vivid, and engaging responses "
     + "while staying relevant and accurate."),
    ("technical",
     "You are a technical assistant. Be precise, explicit about assumptions, and "
     + "provide implementation-oriented guidance.")
  ]

  /** `MODES.keys()` in order; the ensures only unfolds the comprehension. */
  function CatalogModes(): (ms: seq<string>)
    ensures |ms| == |Catalog|
    ensures forall i :: 0 <= i < |Catalog| ==> ms[i] == Catalog[i].0
  {
    seq(|Catalog|, i requires 0 <= i < |Catalog| => Catalog[i].0)
  }

  /** `mode in MODES`. */
  predicate InCatalog(mode: string) {
    mode in CatalogModes()
  }

  /** The instruction stored under `mode`, looked up from position `from`. */
  function LookupFrom(mode: string, from: nat): (r: Option<string>)
    requires from <= |Catalog|
    ensures r.Some? <==> exists i :: from <= i < |Catalog| && Catalog[i].0 == mode
    ensures r.Some? ==> exists i :: from <= i < |Catalog| && Catalog[i] == (mode, r.value)
    decreases |Catalog| - from
  {
    if from == |Catalog| then None
    else if Catalog[from].0 == mode then Some(Catalog[from].1)
    else LookupFrom(mode, from + 1)
  }

  /** `", ".join(MODES.keys())`, as quoted in error messages. */
  function SupportedList(): string {
    Join(CatalogModes(), ", ")
  }

  /** `get_system_prompt`: the stored instruction, or the ValueError raised
      for a mode the catalog does not hold. */
  function GetSystemPrompt(mode: string): (r: Result<string>)
    ensures r.Ok? <==> InCatalog(mode)
    ensures r.Ok? ==> exists i :: 0 <= i < |Catalog| && Catalog[i] == (mode, r.value)
    ensures r.Err? ==> r.error == Failure(ValueErr,
      "Unsupported mode: " + mode + ". Supported modes: " + SupportedList())
  {
    match LookupFrom(mode, 0)
    case Some(instruction) => Ok(instruction)
    case None => Err(Failure(ValueErr, "Unsupported mode: " + mode + ". Supported modes: " + SupportedList()))
  }

  // Properties of the catalog

  /** Each catalog key yields exactly its own stored instruction. */
  lemma StoredInstructionReturned(i: int)
    requires 0 <= i < |Catalog|
    ensures GetSystemPrompt(Catalog[i].0) == Ok(Catalog[i].1)
  {
    var r := GetSystemPrompt(Catalog[i].0);
    var j :| 0 <= j < |Catalog| && Catalog[j] == (Catalog[i].0, r.value);
    assert j == i;
  }

  /** "auto" is a selector, not a catalog mode. */
  lemma AutoIsNotAMode()
    ensures GetSystemPrompt("auto").Err?
    ensures GetSystemPrompt("auto").error.kind == ValueErr
  {
  }

  /** Every instruction is non-empty and the keys are distinct. */
  lemma CatalogWellFormed()
    ensures forall i :: 0 <= i < |Catalog| ==> Catalog[i].1 != []
    ensures forall i, j :: 0 <= i < j < |Catalog| ==> Catalog[i].0 != Catalog[j].0
  {
  }

  /** The catalog and the classifier's keyword table list the same modes in
      the same order. */
  lemma CatalogMatchesClassifier()
    ensures CatalogModes() == Evaluator.ModesOf(Evaluator.Table)
  {
  }

  /** Whatever the input, the classifier with the default fallback
      "detailed" names a mode that has an instruction. */
  lemma ClassifiedModeHasInstruction(userInput: string)
    ensures GetSystemPrompt(Evaluator.ModeChoice(userInput, "detailed")).Ok?
  {
    Evaluator.ClassifyResultRange(Evaluator.Table, userInput, "detailed");
    CatalogMatchesClassifier();
  }
}
