/**
 * The prettifiers of utils.py:28-90, which turn the result dictionaries of
 * the agents and chains into markdown.  Each builds its text by repeated
 * `+=` (and the Q&A one its list of blocks by `append`) inside a loop over
 * the steps or documents, so each is a method with a loop, proved against
 * a specification function of the same text.
 *
 * A result dictionary is a record: `fields` holds `str()` of every entry
 * that is printed as text, looked up by the key parameters, and the one
 * structured entry (`intermediate_steps` or `source_documents`) is an
 * Option.  A lookup of an absent key raises `KeyError`, returned here as
 * `Err(KeyError(key))` for the first lookup that fails.
 */
module Prettify {
  import opened Wrappers
  import opened Text
  import opened Urls

  /** The exception a failed dictionary lookup raises. */
  datatype KeyError = KeyError(key: string)

  /** One agent step, the pair `(action, observation)`: `action.log` and
      `str(observation)`. */
  datatype AgentStep = AgentStep(log: string, observation: string)

  datatype AgentResponse = AgentResponse(fields: map<string, string>, intermediateSteps: Option<seq<AgentStep>>)

  /** The steps of a SQL chain, each as `str(step)`. */
  datatype ChainResponse = ChainResponse(fields: map<string, string>, intermediateSteps: Option<seq<string>>)

  /** A retrieved document: `page_content` and its `metadata` dictionary. */
  datatype Document = Document(pageContent: string, metadata: map<string, string>)

  datatype QaResponse = QaResponse(fields: map<string, string>, sourceDocuments: Option<seq<Document>>)

  function InputSection(input: string): (section: string)
  {
    "**Input:** " + input + "\n\n"
  }

  function OutputSection(output: string): (section: string)
  {
    "\n**Output:** " + output
  }

  // ---------------------------------------------------------------- agents

  /** The two lines an agent step contributes. */
  function ThoughtText(step: AgentStep): (lines: string)
  {
    "**Thought:** " + step.log + "\n" + "**Observation:** _" + step.observation + "_\n\n"
  }

  /** The steps' lines, step after step. */
  function ThoughtsText(steps: seq<AgentStep>): (text: string)
  {
    if steps == [] then [] else ThoughtText(steps[0]) + ThoughtsText(steps[1..])
  }

  /** The text of `prettify_agent_response` for the three entries it reads. */
  function AgentReport(input: string, steps: seq<AgentStep>, output: string): (report: string)
  {
    InputSection(input) + ThoughtsText(steps) + OutputSection(output)
  }

  /** Steps are rendered independently and in list order. */
  lemma {:induction false} ThoughtsAppend(a: seq<AgentStep>, b: seq<AgentStep>)
    ensures ThoughtsText(a + b) == ThoughtsText(a) + ThoughtsText(b)
  {
    if a == [] {
      assert a + b == b;
    } else {
      assert (a + b)[1..] == a[1..] + b;
      ThoughtsAppend(a[1..], b);
    }
  }

  /** Step `k` of the report stands between the steps before it and the
      steps after it: none is dropped, none is moved. */
  lemma AgentReportStep(input: string, steps: seq<AgentStep>, output: string, k: nat)
    requires k < |steps|
    ensures AgentReport(input, steps, output) ==
            InputSection(input) + ThoughtsText(steps[..k]) + ThoughtText(steps[k]) +
            ThoughtsText(steps[k + 1..]) + OutputSection(output)
  {
    var before, after := steps[..k], steps[k..];
    assert before + after == steps;
    ThoughtsAppend(before, after);
    assert after[1..] == steps[k + 1..];
    var x, y, z := ThoughtsText(before), ThoughtText(steps[k]), ThoughtsText(steps[k + 1..]);
    assert ThoughtsText(after) == y + z;
    Regroup(InputSection(input), x, y + z, OutputSection(output));
  }

  /** `a + b + c + d` however the additions are grouped. */
  lemma Regroup(a: string, b: string, c: string, d: string)
    ensures a + (b + c) == a + b + c
    ensures a + b + c + d == a + (b + c + d)
  {
  }

  /** Rendering one more step appends its lines. */
  lemma ThoughtsSnoc(steps: seq<AgentStep>, i: nat)
    requires i < |steps|
    ensures ThoughtsText(steps[..i + 1]) == ThoughtsText(steps[..i]) + ThoughtText(steps[i])
  {
    ThoughtsAppend(steps[..i], [steps[i]]);
    assert steps[..i + 1] == steps[..i] + [steps[i]];
    assert [steps[i]][1..] == [];
  }

  /** The two `+=` of one loop turn add one step's lines. */
  lemma ThoughtLines(before: string, step: AgentStep)
    ensures before + "**Thought:** " + step.log + "\n" + "**Observation:** _" + step.observation + "_\n\n" ==
            before + ThoughtText(step)
  {
  }

  /** One turn of the loop of `prettify_agent_response`. */
  lemma AgentLoopStep(before: string, input: string, steps: seq<AgentStep>, i: nat)
    requires i < |steps| && before == InputSection(input) + ThoughtsText(steps[..i])
    ensures before + "**Thought:** " + steps[i].log + "\n" + "**Observation:** _" + steps[i].observation + "_\n\n" ==
            InputSection(input) + ThoughtsText(steps[..i + 1])
  {
    ThoughtLines(before, steps[i]);
    ThoughtsSnoc(steps, i);
    Regroup(InputSection(input), ThoughtsText(steps[..i]), ThoughtText(steps[i]), []);
  }

  lemma AppendSections(head: string, input: string, middle: string, output: string)
    requires head == InputSection(input) + middle
    ensures head + "\n**Output:** " + output == InputSection(input) + middle + OutputSection(output)
  {
  }

  /** `prettify_agent_response` (utils.py:28-45). */
  method PrettifyAgentResponse(response: AgentResponse, inputKey: string, outputKey: string)
    returns (r: Result<string, KeyError>)
    ensures r.Ok? <==> inputKey in response.fields && response.intermediateSteps.Some? && outputKey in response.fields
    ensures r.Err? ==> r.error.key == (if inputKey !in response.fields then inputKey
                                       else if response.intermediateSteps.None? then "intermediate_steps"
                                       else outputKey)
    ensures r.Ok? ==> r.value == AgentReport(response.fields[inputKey], response.intermediateSteps.value,
                                             response.fields[outputKey])
  {
    var pretty := "";
    if inputKey !in response.fields {
      return Err(KeyError(inputKey));
    }
    pretty := pretty + "**Input:** " + response.fields[inputKey] + "\n\n";
    assert pretty == InputSection(response.fields[inputKey]) + [];
    if response.intermediateSteps.None? {
      return Err(KeyError("intermediate_steps"));
    }
    var steps := response.intermediateSteps.value;
    ghost var input := response.fields[inputKey];
    for i := 0 to |steps|
      invariant pretty == InputSection(input) + ThoughtsText(steps[..i])
    {
      ghost var before := pretty;
      pretty := pretty + "**Thought:** " + steps[i].log + "\n";
      pretty := pretty + "**Observation:** _" + steps[i].observation + "_\n\n";
      AgentLoopStep(before, input, steps, i);
    }
    assert steps[..|steps|] == steps;
    if outputKey !in response.fields {
      return Err(KeyError(outputKey));
    }
    AppendSections(pretty, input, ThoughtsText(steps), response.fields[outputKey]);
    pretty := pretty + "\n**Output:** " + response.fields[outputKey];
    return Ok(pretty);
  }

  // ---------------------------------------------------------------- chains

  /** The line of step number `i`: `**Step {i}:** {step}`. */
  function StepLine(i: nat, step: string): (line: string)
  {
    "**Step " + NatToString(i) + ":** " + step + "\n\n"
  }

  /** The steps' lines, in list order, numbered consecutively from `first`. */
  function StepLines(steps: seq<string>, first: nat): (lines: seq<string>)
    ensures |lines| == |steps|
    ensures forall i :: 0 <= i < |steps| ==> lines[i] == StepLine(first + i, steps[i])
  {
    if steps == [] then [] else [StepLine(first, steps[0])] + StepLines(steps[1..], first + 1)
  }

  /** The text of the steps, numbered from 0. */
  function NumberedSteps(steps: seq<string>): (text: string)
  {
    Concat(StepLines(steps, 0))
  }

  /** The text of `prettify_chain_response`; without steps the middle is empty. */
  function ChainReport(input: string, steps: Option<seq<string>>, output: string): (report: string)
  {
    InputSection(input) + (match steps case None => [] case Some(s) => NumberedSteps(s)) + OutputSection(output)
  }

  lemma ConcatSingle(x: string)
    ensures Concat([x]) == x
  {
    assert [x][1..] == [];
  }

  /** Step `k` of the list is the one labelled `k`, after steps 0 to k-1 and
      before the rest, which are numbered on from `k + 1`. */
  lemma StepNumbered(steps: seq<string>, k: nat)
    requires k < |steps|
    ensures NumberedSteps(steps) ==
            NumberedSteps(steps[..k]) + StepLine(k, steps[k]) + Concat(StepLines(steps[k + 1..], k + 1))
  {
    var lines := StepLines(steps, 0);
    ConcatAround(lines, k);
    StepLinesSlices(steps, k);
  }

  /** Around its element `k`, a list of texts concatenates to the parts
      before and after. */
  lemma ConcatAround(lines: seq<string>, k: nat)
    requires k < |lines|
    ensures Concat(lines) == Concat(lines[..k]) + lines[k] + Concat(lines[k + 1..])
  {
    var before, rest := lines[..k], lines[k..];
    assert lines == before + rest;
    ConcatAppend(before, rest);
    assert rest[0] == lines[k] && rest[1..] == lines[k + 1..];
    Regroup(Concat(before), lines[k], Concat(lines[k + 1..]), []);
  }

  /** The lines of a slice of the steps are the slice of the lines, numbered
      from where the slice starts. */
  lemma StepLinesSlices(steps: seq<string>, k: nat)
    requires k < |steps|
    ensures StepLines(steps, 0)[..k] == StepLines(steps[..k], 0)
    ensures StepLines(steps, 0)[k + 1..] == StepLines(steps[k + 1..], k + 1)
  {
  }

  /** Numbering one more step appends its line. */
  lemma NumberedSnoc(steps: seq<string>, i: nat)
    requires i < |steps|
    ensures NumberedSteps(steps[..i + 1]) == NumberedSteps(steps[..i]) + StepLine(i, steps[i])
  {
    var line := StepLine(i, steps[i]);
    assert StepLines(steps[..i + 1], 0) == StepLines(steps[..i], 0) + [line];
    ConcatAppend(StepLines(steps[..i], 0), [line]);
    ConcatSingle(line);
  }

  /** The `+=` of one loop turn adds one step's line. */
  lemma StepLineParts(before: string, i: nat, step: string)
    ensures before + "**Step " + NatToString(i) + ":** " + step + "\n\n" == before + StepLine(i, step)
  {
  }

  /** One turn of the loop of `prettify_chain_response`. */
  lemma ChainLoopStep(before: string, input: string, steps: seq<string>, i: nat)
    requires i < |steps| && before == InputSection(input) + NumberedSteps(steps[..i])
    ensures before + "**Step " + NatToString(i) + ":** " + steps[i] + "\n\n" ==
            InputSection(input) + NumberedSteps(steps[..i + 1])
  {
    StepLineParts(before, i, steps[i]);
    NumberedSnoc(steps, i);
    Regroup(InputSection(input), NumberedSteps(steps[..i]), StepLine(i, steps[i]), []);
  }

  /** `prettify_chain_response` (utils.py:48-63). */
  method PrettifyChainResponse(response: ChainResponse, inputKey: string, outputKey: string)
    returns (r: Result<string, KeyError>)
    ensures r.Ok? <==> inputKey in response.fields && outputKey in response.fields
    ensures r.Err? ==> r.error.key == (if inputKey !in response.fields then inputKey else outputKey)
    ensures r.Ok? ==> r.value == ChainReport(response.fields[inputKey], response.intermediateSteps,
                                             response.fields[outputKey])
    ensures r.Ok? && response.intermediateSteps.None? ==>
              r.value == "**Input:** " + response.fields[inputKey] + "\n\n\n**Output:** " + response.fields[outputKey]
  {
    var pretty := "";
    if inputKey !in response.fields {
      return Err(KeyError(inputKey));
    }
    pretty := pretty + "**Input:** " + response.fields[inputKey] + "\n\n";
    assert pretty == InputSection(response.fields[inputKey]) + [];
    ghost var input := response.fields[inputKey];
    ghost var middle: string := [];
    if response.intermediateSteps.Some? {
      var steps := response.intermediateSteps.value;
      for i := 0 to |steps|
        invariant pretty == InputSection(input) + NumberedSteps(steps[..i])
      {
        ghost var before := pretty;
        pretty := pretty + "**Step " + NatToString(i) + ":** " + steps[i] + "\n\n";
        ChainLoopStep(before, input, steps, i);
      }
      assert steps[..|steps|] == steps;
      middle := NumberedSteps(steps);
    }
    if outputKey !in response.fields {
      return Err(KeyError(outputKey));
    }
    AppendSections(pretty, input, middle, response.fields[outputKey]);
    pretty := pretty + "\n**Output:** " + response.fields[outputKey];
    return Ok(pretty);
  }

  // ---------------------------------------------------------------- Q&A

  /** Block 0: question and answer verbatim, the model's free-text sources
      with their URLs wrapped. */
  function AnswerBlock(question: string, answer: string, sources: string): (block: string)
  {
    AnswerText(question, answer, WrapUrls(sources))
  }

  /** The layout of block 0 around the already wrapped sources. */
  function AnswerText(question: string, answer: string, wrapped: string): (block: string)
  {
    "**Question:** " + question + "\n\n" + "**Answer:** " + answer + "\n" + "**Sources:** " + wrapped
  }

  predicate HasSource(doc: Document)
  {
    "source" in doc.metadata
  }

  /** The block of one source document. */
  function SourceBlock(doc: Document): (block: string)
    requires HasSource(doc)
  {
    SourceText(WrapUrls(doc.pageContent), WrapUrls(doc.metadata["source"]))
  }

  /** The layout of a source block around the already wrapped texts. */
  function SourceText(content: string, url: string): (block: string)
  {
    "**Source:** " + content + "\n\n" + "**URL:** " + url
  }

  /** The key whose lookup fails first in `prettify_qa_response`. */
  function QaMissingKey(response: QaResponse, questionKey: string, answerKey: string): (key: string)
  {
    if questionKey !in response.fields then questionKey
    else if answerKey !in response.fields then answerKey
    else if "sources" !in response.fields then "sources"
    else if response.sourceDocuments.None? then "source_documents"
    else "source"
  }

  /** The three `+=` that build block 0. */
  lemma AnswerTextParts(question: string, answer: string, wrapped: string)
    ensures "" + "**Question:** " + question + "\n\n" + "**Answer:** " + answer + "\n" + "**Sources:** " + wrapped ==
            AnswerText(question, answer, wrapped)
  {
  }

  /** The two `+=` that build a source block. */
  lemma SourceTextParts(content: string, url: string)
    ensures "" + "**Source:** " + content + "\n\n" + "**URL:** " + url == SourceText(content, url)
  {
  }

  /** `prettify_qa_response` (utils.py:72-90): one answer block, then one
      block per source document, in retrieval order. */
  method PrettifyQaResponse(response: QaResponse, questionKey: string, answerKey: string)
    returns (r: Result<seq<string>, KeyError>)
    ensures r.Ok? <==>
              questionKey in response.fields && answerKey in response.fields && "sources" in response.fields &&
              response.sourceDocuments.Some? &&
              forall i :: 0 <= i < |response.sourceDocuments.value| ==> HasSource(response.sourceDocuments.value[i])
    ensures r.Err? ==> r.error.key == QaMissingKey(response, questionKey, answerKey)
    ensures r.Ok? ==>
              var docs := response.sourceDocuments.value;
              |r.value| == 1 + |docs| &&
              r.value[0] == AnswerBlock(response.fields[questionKey], response.fields[answerKey], response.fields["sources"]) &&
              forall i :: 0 <= i < |docs| ==> r.value[i + 1] == SourceBlock(docs[i])
  {
    var resultList: seq<string> := [];
    var prettyQa := PrettifyAnswer(response.fields, questionKey, answerKey);
    if prettyQa.Err? {
      return Err(prettyQa.error);
    }
    resultList := resultList + [prettyQa.value];
    if response.sourceDocuments.None? {
      return Err(KeyError("source_documents"));
    }
    var docs := response.sourceDocuments.value;
    for i := 0 to |docs|
      invariant |resultList| == 1 + i
      invariant resultList[0] == prettyQa.value
      invariant forall j :: 0 <= j < i ==> HasSource(docs[j])
      invariant forall j :: 0 <= j < i ==> resultList[j + 1] == SourceBlock(docs[j])
    {
      var prettySource := PrettifySource(docs[i]);
      if prettySource.Err? {
        assert !HasSource(docs[i]);
        return Err(prettySource.error);
      }
      resultList := resultList + [prettySource.value];
    }
    return Ok(resultList);
  }

  /** The answer block of `prettify_qa_response` (utils.py:75-80): the
      three `+=`, each after its lookup. */
  method PrettifyAnswer(fields: map<string, string>, questionKey: string, answerKey: string)
    returns (r: Result<string, KeyError>)
    ensures r.Ok? <==> questionKey in fields && answerKey in fields && "sources" in fields
    ensures r.Err? ==> r.error.key == (if questionKey !in fields then questionKey
                                       else if answerKey !in fields then answerKey
                                       else "sources")
    ensures r.Ok? ==> r.value == AnswerBlock(fields[questionKey], fields[answerKey], fields["sources"])
  {
    var prettyQa := "";
    if questionKey !in fields {
      return Err(KeyError(questionKey));
    }
    prettyQa := prettyQa + "**Question:** " + fields[questionKey] + "\n\n";
    if answerKey !in fields {
      return Err(KeyError(answerKey));
    }
    prettyQa := prettyQa + "**Answer:** " + fields[answerKey] + "\n";
    if "sources" !in fields {
      return Err(KeyError("sources"));
    }
    var sources := WrapUrls(fields["sources"]);
    prettyQa := prettyQa + "**Sources:** " + sources;
    AnswerTextParts(fields[questionKey], fields[answerKey], sources);
    return Ok(prettyQa);
  }

  /** The body of the document loop of `prettify_qa_response`
      (utils.py:84-88): the block of one document, or the `KeyError` of its
      missing `source` entry. */
  method PrettifySource(doc: Document) returns (r: Result<string, KeyError>)
    ensures r.Ok? <==> HasSource(doc)
    ensures r.Err? ==> r.error == KeyError("source")
    ensures r.Ok? ==> r.value == SourceBlock(doc)
  {
    var prettySource := "";
    var content := WrapUrls(doc.pageContent);
    prettySource := prettySource + "**Source:** " + content + "\n\n";
    if "source" !in doc.metadata {
      return Err(KeyError("source"));
    }
    var url := WrapUrls(doc.metadata["source"]);
    prettySource := prettySource + "**URL:** " + url;
    SourceTextParts(content, url);
    return Ok(prettySource);
  }

  /** When the model's sources contain no URL, block 0 is the three fields
      put together with nothing inserted. */
  lemma AnswerBlockVerbatim(question: string, answer: string, sources: string)
    requires !HasUrl(sources)
    ensures AnswerBlock(question, answer, sources) ==
            "**Question:** " + question + "\n\n" + "**Answer:** " + answer + "\n" + "**Sources:** " + sources
  {
    WrapUrlsUnchanged(sources);
  }

  /** Only URLs grow a block: its length is the length of its parts plus two
      characters per URL wrapped. */
  lemma SourceBlockLength(doc: Document)
    requires HasSource(doc)
    ensures |SourceBlock(doc)| ==
            |"**Source:** \n\n**URL:** "| + |doc.pageContent| + |doc.metadata["source"]| +
            2 * (LinkCount(Scan(doc.pageContent)) + LinkCount(Scan(doc.metadata["source"])))
  {
    WrapUrlsScan(doc.pageContent);
    WrapUrlsScan(doc.metadata["source"]);
  }
}
