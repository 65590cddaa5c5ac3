/**
 * prompt.go: prompt and prompt-version conversion, the list calls, and the
 * requests of CreatePrompt (string template) and CreateChatPrompt (messages).
 */
module Prompts {
  import opened Wrappers
  import opened Errors
  import Api
  import opened ClientOptions
  import opened Listing

  datatype Prompt = Prompt(id: string, name: string, description: string, sourcePromptID: string)

  /** PromptTemplateType, PromptModelProvider: strings in the SDK. */
  type PromptTemplateType = string
  type PromptModelProvider = string
  const PromptTemplateTypeChat: PromptTemplateType := "CHAT"
  const PromptTemplateTypeString: PromptTemplateType := "STRING"

  datatype PromptVersion = PromptVersion(
    id: string, description: string, template: string, templateType: PromptTemplateType,
    modelName: string, modelProvider: PromptModelProvider)

  datatype PromptMessage = PromptMessage(role: string, content: string)

  // ---- options ---------------------------------------------------------

  datatype PromptOption = WithPromptDescription(description: string)

  /** The description the options of one call end with: the last one given, else "". */
  function PromptDescription(opts: seq<PromptOption>): (d: string)
    ensures |opts| == 0 ==> d == ""
    ensures |opts| > 0 ==> d == opts[|opts| - 1].description
  {
    if |opts| == 0 then "" else opts[|opts| - 1].description
  }

  /** promptOptions */
  class PromptOptions {
    var description: string

    constructor ()
      ensures description == ""
    {
      description := "";
    }

    method ApplyAll(opts: seq<PromptOption>)
      modifies this
      ensures description == (if |opts| == 0 then old(description) else PromptDescription(opts))
    {
      var i := 0;
      while i < |opts|
        invariant 0 <= i <= |opts|
        invariant description == (if i == 0 then old(description) else opts[i - 1].description)
      {
        description := opts[i].description;
        i := i + 1;
      }
    }
  }

  method FoldPromptOptions(opts: seq<PromptOption>) returns (description: string)
    ensures description == PromptDescription(opts)
  {
    var options := new PromptOptions();
    options.ApplyAll(opts);
    description := options.description;
  }

  // ---- conversions -----------------------------------------------------

  /** convertPrompt on a non-nil prompt: Description and SourcePromptID only when set and not null. */
  function PromptOf(p: Api.Prompt): (r: Prompt)
    ensures r.id == p.id && r.name == p.name
    ensures p.description.isSet && !p.description.isNull ==> r.description == p.description.value
    ensures !(p.description.isSet && !p.description.isNull) ==> r.description == ""
    ensures p.sourcePromptID.isSet && !p.sourcePromptID.isNull ==> r.sourcePromptID == p.sourcePromptID.value
    ensures !(p.sourcePromptID.isSet && !p.sourcePromptID.isNull) ==> r.sourcePromptID == ""
  {
    Prompt(p.id, p.name,
      if p.description.isSet && !p.description.isNull then p.description.value else "",
      if p.sourcePromptID.isSet && !p.sourcePromptID.isNull then p.sourcePromptID.value else "")
  }

  function ConvertPrompt(p: Option<Api.Prompt>): (r: Option<Prompt>)
    ensures p.None? <==> r.None?
    ensures p.Some? ==> r.value == PromptOf(p.value)
  {
    match p
    case None => None
    case Some(x) => Some(PromptOf(x))
  }

  /**
   * convertPromptVersion on a non-nil version: Description whenever it is not
   * null, the template text only for a string template ("" for a chat
   * template), the template type and provider as the server's strings.
   */
  function PromptVersionOf(v: Api.PromptVersion): (r: PromptVersion)
    ensures r.id == v.id && r.modelName == v.modelName && r.modelProvider == v.modelProvider
    ensures r.templateType == v.templateType
    ensures r.description == (if v.description.isNull then "" else v.description.value)
    ensures v.template.PromptStringTemplate? ==> r.template == v.template.template
    ensures v.template.PromptChatTemplate? ==> r.template == ""
  {
    PromptVersion(v.id,
      if v.description.isNull then "" else v.description.value,
      if v.template.PromptStringTemplate? then v.template.template else "",
      v.templateType, v.modelName, v.modelProvider)
  }

  function ConvertPromptVersion(v: Option<Api.PromptVersion>): (r: Option<PromptVersion>)
    ensures v.None? <==> r.None?
    ensures v.Some? ==> r.value == PromptVersionOf(v.value)
  {
    match v
    case None => None
    case Some(x) => Some(PromptVersionOf(x))
  }

  /**
   * GetPromptLatest, GetPromptVersion and GetPromptVersionByTag: the
   * reply's error, "unexpected response type", or the converted version.
   */
  function FetchedVersion(reply: Api.Reply<Api.PromptVersionResponseBody>): (res: Result<PromptVersion, Error>)
    ensures res.Success? <==> reply.Body?
    ensures res.Failure? ==> res.error == Api.Decoded(reply).error
    ensures res.Success? ==> res.value == PromptVersionOf(reply.body.data)
  {
    match Api.Decoded(reply)
    case Failure(e) => Failure(e)
    case Success(body) => Success(PromptVersionOf(body.data))
  }

  // ---- lists -----------------------------------------------------------

  /** ListPrompts: the paging parameters sent, and the converted page or the error. */
  method ListPrompts(opts: seq<ListOption>, reply: Api.Reply<Api.GetPromptsResponseBody>)
    returns (params: Api.Paging, res: Result<Page<Prompt>, Error>)
    ensures params == PagingFor(ListAppliedAll(DefaultListSettings, opts))
    ensures res.Success? <==> reply.Body?
    ensures res.Failure? ==> res.error == Api.Decoded(reply).error
    ensures res.Success? ==> (Converted(reply.body.data, res.value.items, PromptOf) &&
      res.value.nextCursor == NextCursor(reply.body.nextCursor))
  {
    var options := FoldListOptions(opts);
    params := PagingFor(options);
    var decoded := Api.Decoded(reply);
    if decoded.Failure? {
      return params, Failure(decoded.error);
    }
    var prompts := ConvertAll(decoded.value.data, PromptOf);
    res := Success(Page(prompts, NextCursor(decoded.value.nextCursor)));
  }

  /** ListPromptVersions: the prompt identifier passes through; otherwise as ListPrompts. */
  method ListPromptVersions(promptName: string, opts: seq<ListOption>, reply: Api.Reply<Api.GetPromptVersionsResponseBody>)
    returns (identifier: string, params: Api.Paging, res: Result<Page<PromptVersion>, Error>)
    ensures identifier == promptName
    ensures params == PagingFor(ListAppliedAll(DefaultListSettings, opts))
    ensures res.Success? <==> reply.Body?
    ensures res.Failure? ==> res.error == Api.Decoded(reply).error
    ensures res.Success? ==> (Converted(reply.body.data, res.value.items, PromptVersionOf) &&
      res.value.nextCursor == NextCursor(reply.body.nextCursor))
  {
    identifier := promptName;
    var options := FoldListOptions(opts);
    params := PagingFor(options);
    var decoded := Api.Decoded(reply);
    if decoded.Failure? {
      return identifier, params, Failure(decoded.error);
    }
    var versions := ConvertAll(decoded.value.data, PromptVersionOf);
    res := Success(Page(versions, NextCursor(decoded.value.nextCursor)));
  }

  // ---- creation --------------------------------------------------------

  /** The prompt part of both create requests: the name, and the description only when non-empty. */
  function PromptDataFor(name: string, description: string): (d: Api.PromptData)
    ensures d.name == name
    ensures d.description.isSet <==> description != ""
    ensures d.description == (if description != "" then Api.SetTo(description) else Api.NoString)
  {
    Api.PromptData(name, if description != "" then Api.SetTo(description) else Api.NoString)
  }

  /** The request CreatePrompt sends: a MUSTACHE, STR version holding the template as given. */
  function StringPromptRequest(name: string, template: string, modelName: string, modelProvider: PromptModelProvider,
                               description: string): (r: Api.CreatePromptRequestBody)
    ensures r.prompt == PromptDataFor(name, description)
    ensures r.version.modelName == modelName && r.version.modelProvider == modelProvider
    ensures r.version.templateFormat == "MUSTACHE" && r.version.templateType == "STR"
    ensures r.version.template == Api.PromptStringTemplate(template)
  {
    Api.CreatePromptRequestBody(PromptDataFor(name, description),
      Api.PromptVersionData(modelName, modelProvider, Api.TemplateFormatMUSTACHE, Api.TemplateTypeSTR,
        Api.PromptStringTemplate(template)))
  }

  /** One SDK message as an API message with string content. */
  function MessageOf(m: PromptMessage): (r: Api.PromptMessage)
    ensures r.role == m.role && r.content == m.content
  {
    Api.PromptMessage(m.role, m.content)
  }

  /** The request CreateChatPrompt sends: a MUSTACHE, CHAT version holding the converted messages. */
  function ChatPromptRequest(name: string, apiMessages: seq<Api.PromptMessage>, modelName: string,
                             modelProvider: PromptModelProvider, description: string): (r: Api.CreatePromptRequestBody)
    ensures r.prompt == PromptDataFor(name, description)
    ensures r.version.modelName == modelName && r.version.modelProvider == modelProvider
    ensures r.version.templateFormat == "MUSTACHE" && r.version.templateType == "CHAT"
    ensures r.version.template == Api.PromptChatTemplate(apiMessages)
  {
    Api.CreatePromptRequestBody(PromptDataFor(name, description),
      Api.PromptVersionData(modelName, modelProvider, Api.TemplateFormatMUSTACHE, Api.TemplateTypeCHAT,
        Api.PromptChatTemplate(apiMessages)))
  }

  /** CreatePrompt: the request sent, and the converted version of the reply or the error. */
  method CreatePrompt(name: string, template: string, modelName: string, modelProvider: PromptModelProvider,
                      opts: seq<PromptOption>, reply: Api.Reply<Api.PromptVersionResponseBody>)
    returns (req: Api.CreatePromptRequestBody, res: Result<PromptVersion, Error>)
    ensures req == StringPromptRequest(name, template, modelName, modelProvider, PromptDescription(opts))
    ensures res == FetchedVersion(reply)
  {
    var description := FoldPromptOptions(opts);
    req := StringPromptRequest(name, template, modelName, modelProvider, description);
    res := FetchedVersion(reply);
  }

  /** CreateChatPrompt: the messages converted one for one, in order. */
  method CreateChatPrompt(name: string, messages: seq<PromptMessage>, modelName: string, modelProvider: PromptModelProvider,
                          opts: seq<PromptOption>, reply: Api.Reply<Api.PromptVersionResponseBody>)
    returns (req: Api.CreatePromptRequestBody, res: Result<PromptVersion, Error>)
    ensures req.prompt == PromptDataFor(name, PromptDescription(opts))
    ensures req.version.templateType == "CHAT" && req.version.template.PromptChatTemplate?
    ensures Converted(messages, req.version.template.messages, MessageOf)
    ensures req == ChatPromptRequest(name, req.version.template.messages, modelName, modelProvider, PromptDescription(opts))
    ensures res == FetchedVersion(reply)
  {
    var description := FoldPromptOptions(opts);
    var apiMessages := ConvertAll(messages, MessageOf);
    req := ChatPromptRequest(name, apiMessages, modelName, modelProvider, description);
    res := FetchedVersion(reply);
  }

  /**
   * A version the server stores from CreatePrompt's request converts back
   * to the given template, model name and provider; its template type is
   * the API's "STR", which is not the SDK constant PromptTemplateTypeString
   * ("STRING").
   */
  lemma StringPromptRoundTrip(name: string, template: string, modelName: string, modelProvider: PromptModelProvider,
                              description: string, id: string, storedDescription: Api.Nil<string>)
    ensures var v := StringPromptRequest(name, template, modelName, modelProvider, description).version;
      var r := PromptVersionOf(Api.PromptVersion(id, storedDescription, v.modelName, v.modelProvider, v.templateType, v.template));
      r.template == template && r.modelName == modelName && r.modelProvider == modelProvider &&
      r.templateType == "STR" && r.templateType != PromptTemplateTypeString
  {
    assert "STR" != PromptTemplateTypeString by { assert |"STR"| != |PromptTemplateTypeString|; }
  }

  /** A chat version converts back with an empty template text: the messages are not read back. */
  lemma ChatPromptReadsNoTemplate(name: string, messages: seq<Api.PromptMessage>, modelName: string,
                                  modelProvider: PromptModelProvider, description: string, id: string, storedDescription: Api.Nil<string>)
    ensures var v := ChatPromptRequest(name, messages, modelName, modelProvider, description).version;
      var r := PromptVersionOf(Api.PromptVersion(id, storedDescription, v.modelName, v.modelProvider, v.templateType, v.template));
      r.template == "" && r.templateType == PromptTemplateTypeChat
  {
  }
}
