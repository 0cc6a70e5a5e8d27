/** Properties of the assistant's model selection and reply: precedence, membership, that nothing
    after the first flash name is looked at, and idempotence. */
module ServicesProperties {
  import opened Wrappers
  import opened Text
  import opened Services

  /** Without an API key (absent or empty) the fixed reply comes back and no model is asked. */
  lemma NoKeyNoModel(prompt: string, context: string, apiKey: Option<string>, gemini: Gemini)
    requires apiKey.None? || apiKey.value == ""
    ensures AiReply(prompt, context, apiKey, gemini) == (NotConnectedReply, None)
  {
  }

  /** With a key and a working client the selected model is asked; its answer is the reply, and a
      raised error becomes the apology carrying the error's text. */
  lemma ConnectedReply(prompt: string, context: string, key: string, gemini: Gemini)
    requires key != "" && gemini.clientError.None?
    ensures var (reply, asked) := AiReply(prompt, context, Some(key), gemini);
      && asked == Some(Selection(gemini.listed))
      && (gemini.generate(Selection(gemini.listed), prompt, context).Ok? ==>
            reply == gemini.generate(Selection(gemini.listed), prompt, context).value)
      && (gemini.generate(Selection(gemini.listed), prompt, context).Err? ==>
            reply == TroublePrefix + gemini.generate(Selection(gemini.listed), prompt, context).error)
  {
  }

  /** The chosen model is one of the collected names or the default literal. */
  lemma SelectionIsCollectedOrDefault(listed: seq<string>)
    ensures Selection(listed) in Collected(listed) || Selection(listed) == DefaultModel
    ensures Selection(listed) in listed || Selection(listed) == DefaultModel
  {
  }

  /** The collected names are a prefix of the listing that ends at the first flash name. */
  lemma CollectedPrefix(listed: seq<string>)
    ensures Collected(listed) <= listed
    ensures |Collected(listed)| == if FirstFlash(listed) < |listed| then FirstFlash(listed) + 1 else |listed|
    ensures forall j :: 0 <= j < |Collected(listed)| - 1 ==> !IsFlash(Collected(listed)[j])
  {
  }

  /** Precedence, first rule: a flash name without "legacy" wins, and it is the first such name. */
  lemma FlashFirst(listed: seq<string>)
    requires exists k :: 0 <= k < |listed| && IsFlash(listed[k])
    ensures IsFlash(Selection(listed))
    ensures exists k :: 0 <= k < |listed| && listed[k] == Selection(listed) &&
                        forall j :: 0 <= j < k ==> !IsFlash(listed[j])
  {
    var f := FirstFlash(listed);
    assert f < |listed|;
  }

  /** Second rule: without a flash name, the first pro name wins. */
  lemma ProSecond(listed: seq<string>)
    requires forall k :: 0 <= k < |listed| ==> !IsFlash(listed[k])
    requires exists k :: 0 <= k < |listed| && IsPro(listed[k])
    ensures IsPro(Selection(listed))
    ensures exists k :: 0 <= k < |listed| && listed[k] == Selection(listed) &&
                        forall j :: 0 <= j < k ==> !IsPro(listed[j])
  {
    var p := FirstPro(listed);
    assert p < |listed|;
  }

  /** Third and fourth rules: with neither, the first name, unless there is none or it is empty. */
  lemma FirstNameOrDefault(listed: seq<string>)
    requires forall k :: 0 <= k < |listed| ==> !IsFlash(listed[k]) && !IsPro(listed[k])
    ensures listed != [] && listed[0] != "" ==> Selection(listed) == listed[0]
    ensures listed == [] || listed[0] == "" ==> Selection(listed) == DefaultModel
  {
    assert FirstFlash(listed) == |listed| && FirstPro(listed) == |listed|;
  }

  /** The listing loop stops at the first flash name: whatever the listing would yield after it,
      including an error, changes neither the collected names nor the choice. */
  lemma NoLaterNamesInspected(names: seq<string>, rest: seq<string>)
    requires FirstFlash(names) < |names|
    ensures FirstFlash(names + rest) == FirstFlash(names)
    ensures Collected(names + rest) == Collected(names)
    ensures Selection(names + rest) == Selection(names)
  {
    var f := FirstFlash(names);
    assert (names + rest)[f] == names[f];
    assert forall j :: 0 <= j < f ==> (names + rest)[j] == names[j];
    assert (names + rest)[..f + 1] == names[..f + 1];
  }

  /** The chosen name is never empty: flash and pro names contain those words, an empty first name
      is passed over and the default is not empty. */
  lemma SelectionNonEmpty(listed: seq<string>)
    ensures Selection(listed) != ""
  {
    NoMatchInEmpty("flash");
    NoMatchInEmpty("pro");
  }

  /** Choosing again among just the chosen name gives the same name. */
  lemma SelectionIdempotent(listed: seq<string>)
    ensures Selection([Selection(listed)]) == Selection(listed)
  {
    var s := Selection(listed);
    SelectionNonEmpty(listed);
    assert [s][0] == s && |[s]| == 1;
  }
}
