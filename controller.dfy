/** The event handlers of the prompt generator's main screen that change its state:
    template generation, AI-refined generation, sign-out and the form reset. The remote
    refinement call is an abstract reply handed to the model, and whether the awaited
    sign-out call returns or throws is a flag. */
module Controller {
  import opened JsString
  import opened Optional
  import opened PromptTemplate
  import opened Settings

  datatype AuthView = Login | Signup | Reset

  /** What `aiError` shows. */
  datatype AiError =
    | MissingKey               // no key configured
    | NoOutput                 // the service produced no text
    | Thrown(message: string)  // the message of the error the request raised
    | Unexplained              // an error without a message

  /** The text of each error, as the screen shows it; only an error's own message can be
      empty. */
  function ErrorText(e: AiError): (t: string)
    ensures !e.Thrown? ==> t != ""
    ensures e.Thrown? ==> t == e.message
  {
    match e
    case MissingKey => "OpenRouter API Key မထည့်ရသေးပါ။ Settings (⚙️) ထဲမှာ key ထည့်ပေးပါ။"
    case NoOutput => "AI က output မထုတ်နိုင်သေးပါ"
    case Thrown(m) => m
    case Unexplained => "AI generate မအောင်မြင်ပါ"
  }

  /** A refinement request: the key, the model and the draft prompt to rewrite. */
  datatype Request = Request(apiKey: string, model: string, draft: string)

  /** How the refinement call ends: with the content of the first choice, with no string
      content, or by throwing an error that may carry a message. */
  datatype Reply = Content(raw: string) | NoContent | Failed(message: Option<string>)

  /** What the refinement call resolves with: the content with the whitespace at both ends
      removed, or `""` without content. */
  function Improved(reply: Reply): (r: string)
    requires !reply.Failed?
    ensures Trimmed(r)
    ensures reply.Content? ==> exists p, q :: reply.raw == p + r + q && AllWhitespace(p) && AllWhitespace(q)
    ensures reply.NoContent? ==> r == ""
  {
    if reply.Content? then TrimDropsEdges(reply.raw); Trim(reply.raw) else ""
  }

  /** A request the refinement service can be asked with: a non-empty trimmed key and a
      non-empty trimmed model. */
  predicate Usable(r: Request) {
    r.apiKey != "" && Trimmed(r.apiKey) && r.model != "" && Trimmed(r.model)
  }

  /** The request `generateAI` sends for the stored key and model, or `None` when the key is
      blank. */
  function AiRequest(key: string, model: string, draft: string): (r: Option<Request>)
    ensures r.Some? <==> Trim(key) != ""
    ensures r.Some? ==> r.value.apiKey == Trim(key) && r.value.draft == draft
    ensures r.Some? ==> r.value.model == ModelChoice(model)
    ensures r.Some? ==> Usable(r.value)
  {
    if Trim(key) == "" then None else Some(Request(Trim(key), ModelChoice(model), draft))
  }

  /** A key of whitespace only never leads to a request. */
  lemma BlankKeyRefused(key: string, model: string, draft: string)
    ensures AiRequest(key, model, draft).None? <==> AllWhitespace(key)
  {
    TrimEmpty(key);
  }

  /** Whatever saving stores is what the next request carries: after saving a non-blank
      draft key, the request uses exactly the saved key and model. */
  lemma SavedSettingsReachRequest(draftKey: string, draftModel: string, draft: string)
    requires Trim(draftKey) != ""
    ensures var p := SavedPreference(draftKey, draftModel);
            AiRequest(p.key, p.model, draft) == Some(Request(p.key, p.model, draft))
  {
    var p := SavedPreference(draftKey, draftModel);
    TrimIdempotent(draftKey);
    TrimmedIsFixed(p.model);
  }

  /** The form values the screen starts with: an empty topic and context, and every other
      field at the value its placeholder would default to. */
  function InitialForm(): (i: PromptInput)
    ensures Get(i, Topic) == "" && Get(i, Context) == ""
    ensures forall f :: f != Topic && f != Context ==> Get(i, f) == DefaultOf(f)
  {
    PromptInput("", "",
      DefaultOf(Lang), DefaultOf(Framework), DefaultOf(CodeType), DefaultOf(Tone),
      DefaultOf(Style), DefaultOf(ImageModel), DefaultOf(Size),
      DefaultOf(ToolName), DefaultOf(Duration), DefaultOf(Mood), DefaultOf(Movement))
  }

  /** Every placeholder of the initial form shows its default. */
  lemma InitialFormShowsDefaults(f: Field)
    ensures Resolved(InitialForm(), f) == DefaultOf(f)
  {
    NoBlankSlot(InitialForm(), f);
  }

  /** The form with topic and context emptied, as sign-out and Reset leave it. */
  function ClearedForm(i: PromptInput): (j: PromptInput)
    ensures Get(j, Topic) == "" && Get(j, Context) == ""
    ensures forall f :: f != Topic && f != Context ==> Get(j, f) == Get(i, f)
  {
    i.(topic := "", context := "")
  }

  /** After topic and context are cleared, every template shows `—` for both and keeps the
      rest of the form. */
  lemma ClearedFormPrompt(tool: Tool, i: PromptInput)
    ensures BuildPrompt(tool, ClearedForm(i)) == BuildPrompt(tool, With(With(i, Topic, "—"), Context, "—"))
  {
    var c, d := ClearedForm(i), With(With(i, Topic, "—"), Context, "—");
    forall f | f in ModeFields(tool) ensures Resolved(c, f) == Resolved(d, f) {
      NoBlankSlot(c, f);
      NoBlankSlot(d, f);
    }
    OnlyModeFieldsMatter(tool, c, d);
  }

  /** The state of the main screen. The form values are held as one `PromptInput` (the
      source keeps one state cell per field); `requests` records every refinement request
      sent, for stating what is never sent. */
  class App {
    const settings: SettingsStore
    var tool: Tool
    var form: PromptInput
    var output: string
    var copied: bool
    var aiBusy: bool
    var aiError: Option<AiError>
    var authView: AuthView
    var authNotice: Option<string>
    var authError: Option<string>
    ghost var requests: seq<Request>

    /** No request without a usable key and model has ever been sent. */
    ghost predicate Valid()
      reads this
    {
      forall k :: 0 <= k < |requests| ==> Usable(requests[k])
    }

    /** The initial state of the screen. */
    constructor (s: SettingsStore)
      ensures settings == s && tool == Coding && form == InitialForm()
      ensures output == "" && !copied && !aiBusy && aiError == None
      ensures authView == Login && authNotice == None && authError == None
      ensures requests == [] && Valid()
    {
      settings := s;
      tool := Coding;
      form := InitialForm();
      output := "";
      copied := false;
      aiBusy := false;
      aiError := None;
      authView := Login;
      authNotice := None;
      authError := None;
      requests := [];
    }

    /** `generateTemplate`: shows the template prompt for the current tool and form. */
    method GenerateTemplate()
      modifies this`aiError, this`output, this`copied
      ensures aiError == None && output == BuildPrompt(tool, form) && !copied
      ensures output != ""
    {
      aiError := None;
      var txt := BuildPrompt(tool, form);
      PromptFrame(tool, form);
      output := txt;
      copied := false;
    }

    /** `generateAI` up to the awaited call: refuses a blank key with an error and sends
        nothing, otherwise marks the screen busy and sends the request for the draft prompt.
        `output` is left as it is either way. */
    method BeginGenerateAI() returns (request: Option<Request>)
      requires Valid()
      modifies this`aiError, this`aiBusy, this`requests
      ensures Valid()
      ensures request == AiRequest(settings.key, settings.model, BuildPrompt(tool, form))
      ensures request.None? ==> aiError == Some(MissingKey) && aiBusy == old(aiBusy) && requests == old(requests)
      ensures request.Some? ==> aiError == None && aiBusy && requests == old(requests) + [request.value]
    {
      aiError := None;
      if Trim(settings.key) == "" {
        aiError := Some(MissingKey);
        return None;
      }
      var model := ModelChoice(settings.model);
      var draft := BuildPrompt(tool, form);
      aiBusy := true;
      request := Some(Request(Trim(settings.key), model, draft));
      requests := requests + [request.value];
    }

    /** `generateAI` after the awaited call: a non-empty result replaces the output, an empty
        one or a failure sets the error and keeps the output; the screen is no longer busy.
        Nothing here looks at the session: a reply that arrives after sign-out is shown. */
    method FinishGenerateAI(reply: Reply)
      modifies this`output, this`copied, this`aiError, this`aiBusy
      ensures !aiBusy
      ensures !reply.Failed? && Improved(reply) != "" ==>
                output == Improved(reply) && !copied && aiError == old(aiError)
      ensures !reply.Failed? && Improved(reply) == "" ==>
                output == old(output) && copied == old(copied) && aiError == Some(NoOutput)
      ensures reply.Failed? ==>
                output == old(output) && copied == old(copied) &&
                aiError == Some(if reply.message.Some? then Thrown(reply.message.value) else Unexplained)
    {
      if reply.Failed? {
        aiError := Some(if reply.message.Some? then Thrown(reply.message.value) else Unexplained);
      } else {
        var improved := Improved(reply);
        if improved == "" {
          aiError := Some(NoOutput);
        } else {
          output := improved;
          copied := false;
        }
      }
      aiBusy := false;
    }

    /** The whole of `generateAI` when nothing else happens while the request is out: the
        output changes only to a non-empty refined prompt, and only after a request with a
        usable key was sent. */
    method GenerateAI(reply: Reply) returns (request: Option<Request>)
      requires Valid()
      modifies this`output, this`copied, this`aiError, this`aiBusy, this`requests
      ensures Valid()
      ensures request == AiRequest(settings.key, settings.model, BuildPrompt(tool, form))
      ensures request.None? ==>
                output == old(output) && copied == old(copied) && aiError == Some(MissingKey) &&
                aiBusy == old(aiBusy) && requests == old(requests)
      ensures request.Some? ==> requests == old(requests) + [request.value] && !aiBusy
      ensures request.Some? && !reply.Failed? && Improved(reply) != "" ==>
                output == Improved(reply) && !copied && aiError == None
      ensures request.Some? && !reply.Failed? && Improved(reply) == "" ==>
                output == old(output) && copied == old(copied) && aiError == Some(NoOutput)
      ensures request.Some? && reply.Failed? ==>
                output == old(output) && copied == old(copied) &&
                aiError == Some(if reply.message.Some? then Thrown(reply.message.value) else Unexplained)
      ensures output != old(output) ==>
                request.Some? && !reply.Failed? && output == Improved(reply) && output != ""
    {
      request := BeginGenerateAI();
      if request.Some? {
        FinishGenerateAI(reply);
      }
    }

    /** `onSignOut`: `resolved` says whether the awaited sign-out call returned rather than
        threw. When it returned, whatever error result it carries, the output, topic and
        context are cleared and the login view is shown; when it threw, nothing changes. A
        pending refinement request is not cancelled. */
    method SignOut(resolved: bool)
      modifies this`output, this`form, this`authView, this`authNotice, this`authError
      ensures resolved ==> output == "" && form == ClearedForm(old(form))
      ensures resolved ==> authView == Login && authNotice == None && authError == None
      ensures !resolved ==>
                output == old(output) && form == old(form) && authView == old(authView) &&
                authNotice == old(authNotice) && authError == old(authError)
    {
      if resolved {
        output := "";
        form := form.(topic := "");
        form := form.(context := "");
        authView := Login;
        authNotice := None;
        authError := None;
      }
    }

    /** The Reset button: clears the topic, the context, the output and the error. */
    method ResetForm()
      modifies this`form, this`output, this`aiError
      ensures form == ClearedForm(old(form)) && output == "" && aiError == None
    {
      form := form.(topic := "");
      form := form.(context := "");
      output := "";
      aiError := None;
    }
  }
}
