/** The assistant reply of utils/services.py, get_ai_response: the early answer without an API key, the
    choice of the Gemini model to ask (a flash model without "legacy", else a pro model, else the
    first listed, else a fixed default), and the apology when the client fails.

    The client itself is outside: whether constructing it raises, the names its model listing yields
    before it ends or raises, and what generate_content answers are the fields of a Gemini value. */
module Services {
  import opened Wrappers
  import opened Text

  const NotConnectedReply: string :=
    "I'm sorry, I'm not fully connected to the cloud right now. Please check my configuration."
  const TroublePrefix: string := "I'm having trouble thinking right now. Error: "
  const DefaultModel: string := "gemini-2.5-flash"

  predicate IsFlash(name: string) {
    Contains(Lower(name), "flash") && !Contains(Lower(name), "legacy")
  }

  predicate IsPro(name: string) {
    Contains(Lower(name), "pro")
  }

  /** The position of the first flash name, |names| when there is none. */
  function FirstFlash(names: seq<string>): (k: nat)
    ensures k <= |names|
    ensures k < |names| ==> IsFlash(names[k])
    ensures forall j :: 0 <= j < k ==> !IsFlash(names[j])
  {
    if names == [] then 0 else if IsFlash(names[0]) then 0 else 1 + FirstFlash(names[1..])
  }

  /** The position of the first pro name, |names| when there is none. */
  function FirstPro(names: seq<string>): (k: nat)
    ensures k <= |names|
    ensures k < |names| ==> IsPro(names[k])
    ensures forall j :: 0 <= j < k ==> !IsPro(names[j])
  {
    if names == [] then 0 else if IsPro(names[0]) then 0 else 1 + FirstPro(names[1..])
  }

  /** all_models after the listing loop: every listed name up to and including the first flash name. */
  function Collected(listed: seq<string>): seq<string> {
    var f := FirstFlash(listed);
    if f < |listed| then listed[..f + 1] else listed
  }

  /** The preference rule: the first flash name, else the first pro name, else the first name unless it
      is empty (an empty name is falsy), else the default. */
  function Selection(listed: seq<string>): string {
    var f := FirstFlash(listed);
    var p := FirstPro(listed);
    if f < |listed| then listed[f]
    else if p < |listed| then listed[p]
    else if listed != [] && listed[0] != "" then listed[0]
    else DefaultModel
  }

  /** Python truthiness of target_model, which is None or a name. */
  predicate Chosen(target: Option<string>) {
    target.Some? && target.value != ""
  }

  lemma NoMatchInEmpty(sub: string)
    requires sub != ""
    ensures !Contains(Lower(""), sub)
  {
    assert Lower("") == "";
    forall i | 0 <= i <= 0
      ensures !StartsWith(""[i..], sub)
    {
    }
  }

  /** The target-model selection of get_ai_response: walk the listing appending every name and stop
      at the first flash one; failing that, the first collected pro name; failing that, the first
      collected name; failing that (or when that name is empty), the default. */
  method SelectTargetModel(listed: seq<string>) returns (target: string, collected: seq<string>)
    ensures collected == Collected(listed)
    ensures target == Selection(listed)
  {
    NoMatchInEmpty("flash");
    NoMatchInEmpty("pro");
    var chosen: Option<string> := None;
    collected := [];
    var i := 0;
    while i < |listed|
      invariant 0 <= i <= |listed|
      invariant collected == listed[..i]
      invariant chosen.None? ==> forall j :: 0 <= j < i ==> !IsFlash(listed[j])
      invariant chosen.Some? ==> 1 <= i && FirstFlash(listed) == i - 1 && chosen.value == listed[i - 1]
    {
      var name := listed[i];
      collected := collected + [name];
      i := i + 1;
      if IsFlash(name) {
        chosen := Some(name);
        break;
      }
    }
    if chosen.None? {
      assert FirstFlash(listed) == |listed| && collected == listed;
    }
    if !Chosen(chosen) {
      var j := 0;
      while j < |collected| && !IsPro(collected[j])
        invariant 0 <= j <= |collected|
        invariant forall q :: 0 <= q < j ==> !IsPro(collected[q])
      {
        j := j + 1;
      }
      if j < |collected| {
        chosen := Some(collected[j]);
      }
    }
    if !Chosen(chosen) && collected != [] {
      chosen := Some(collected[0]);
    }
    if !Chosen(chosen) {
      chosen := Some(DefaultModel);
    }
    target := chosen.value;
    assert listed[..|listed|] == listed;
  }

  /** The assistant's view of the Gemini client: the error genai.Client raises, if any; the names
      models.list() yields before it ends or raises; and generate_content's answer for a model name,
      the user's prompt and its context, or the exception it raises. */
  datatype Gemini = Gemini(clientError: Option<string>, listed: seq<string>,
                           generate: (string, string, string) -> Result<string>)

  /** The reply and the model it was asked of (None when none was asked). */
  function AiReply(prompt: string, context: string, apiKey: Option<string>, gemini: Gemini): (string, Option<string>) {
    if apiKey.None? || apiKey.value == "" then (NotConnectedReply, None)
    else if gemini.clientError.Some? then (TroublePrefix + gemini.clientError.value, None)
    else
      var model := Selection(gemini.listed);
      match gemini.generate(model, prompt, context)
      case Ok(text) => (text, Some(model))
      case Err(e) => (TroublePrefix + e, Some(model))
  }

  /** get_ai_response: no key, no model; otherwise select a model and ask it, apologising with the
      exception's text when the client or the call raises. */
  method GetAiResponse(prompt: string, context: string, apiKey: Option<string>, gemini: Gemini)
    returns (reply: string, asked: Option<string>)
    ensures (reply, asked) == AiReply(prompt, context, apiKey, gemini)
  {
    if apiKey.None? || apiKey.value == "" {
      return NotConnectedReply, None;
    }
    if gemini.clientError.Some? {
      return TroublePrefix + gemini.clientError.value, None;
    }
    var target, _ := SelectTargetModel(gemini.listed);
    var answer := gemini.generate(target, prompt, context);
    asked := Some(target);
    if answer.Ok? {
      reply := answer.value;
    } else {
      reply := TroublePrefix + answer.error;
    }
  }
}
