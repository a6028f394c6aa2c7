/**
 * The guide generator's flow controller: a state record threaded through
 * three steps (receive the inputs, run the research stage, run the writing
 * stage), each of which hands a status token to the next.
 *
 * The two stages are opaque: each is a parameter that maps the stage's
 * arguments to an `Outcome`, either the stage's raw text or a failure
 * (any `Exception` the stage raises; the steps catch nothing wider). The flow object keeps a ghost log of
 * the arguments each stage was invoked with, so that "the stage was not
 * called" and "the stage was called once, with these arguments" can be
 * stated.
 */
module GuideFlow {
  import opened Optional
  import opened Sources

  /** The status tokens the steps return. */
  datatype Status =
    | NoSources
    | InputsReceived
    | ResearchSkipped
    | ResearchComplete
    | ResearchFailed
    | WritingSkipped
    | GuideComplete
    | WritingFailed

  /** The string each token is in the program. */
  function Literal(status: Status): string {
    match status
    case NoSources => "no_sources"
    case InputsReceived => "inputs_received"
    case ResearchSkipped => "research_skipped"
    case ResearchComplete => "research_complete"
    case ResearchFailed => "research_failed"
    case WritingSkipped => "writing_skipped"
    case GuideComplete => "guide_complete"
    case WritingFailed => "writing_failed"
  }

  /**
   * Distinct tokens are distinct strings, so comparing the program's
   * strings and comparing tokens agree.
   */
  lemma LiteralInjective(a: Status, b: Status)
    ensures Literal(a) == Literal(b) <==> a == b
  {
  }

  /** The tokens with which a run of the flow ends. */
  predicate IsTerminal(status: Status) {
    status == WritingSkipped || status == GuideComplete || status == WritingFailed
  }

  /** What running a stage yields: its raw text, or an `Exception` raised by it. */
  datatype Outcome = Success(raw: string) | Failure

  /** The flow's state record: the four source fields and the two stage outputs. */
  class ResearchFlowState {
    var youtubeLinks: Option<string>
    var documentPaths: Option<string>
    var webpageLinks: Option<string>
    var researchPaperLinks: Option<string>
    var researchReport: Option<string>
    var finalGuide: Option<string>

    /** A fresh state carries the given inputs and no outputs. */
    constructor (inputs: Inputs)
      ensures UserInputs() == inputs
      ensures researchReport == None && finalGuide == None
    {
      youtubeLinks := inputs.youtubeLinks;
      documentPaths := inputs.documentPaths;
      webpageLinks := inputs.webpageLinks;
      researchPaperLinks := inputs.researchPaperLinks;
      researchReport := None;
      finalGuide := None;
    }

    /** The four source fields as a value. */
    function UserInputs(): Inputs
      reads this
    {
      Inputs(youtubeLinks, documentPaths, webpageLinks, researchPaperLinks)
    }

    /** A guide is only ever present together with the report it was written from. */
    predicate OutputsConsistent()
      reads this
    {
      finalGuide.Some? ==> researchReport.Some?
    }
  }

  class GuideGeneratorFlow {
    const state: ResearchFlowState
    /** The arguments of every invocation of the research stage, oldest first. */
    ghost var researchCalls: seq<ResearchInputs>
    /** The report handed to every invocation of the writing stage, oldest first. */
    ghost var writingCalls: seq<Option<string>>

    constructor (inputs: Inputs)
      ensures fresh(state)
      ensures state.UserInputs() == inputs
      ensures state.researchReport == None && state.finalGuide == None
      ensures researchCalls == [] && writingCalls == []
    {
      state := new ResearchFlowState(inputs);
      researchCalls := [];
      writingCalls := [];
    }

    /**
     * First step: collects the labels of the truthy source fields, in the
     * fixed order YouTube, Web Pages, Documents, Research Papers, and
     * reports `no_sources` exactly when there are none. The labels are
     * what the step displays; they are returned here.
     */
    method ReceiveUserInputs() returns (status: Status, sourcesProvided: seq<string>)
      ensures sourcesProvided == ProvidedSources(state.UserInputs())
      ensures status == NoSources <==> AllSourcesEmpty(state.UserInputs())
      ensures status == NoSources || status == InputsReceived
    {
      ghost var inputs := state.UserInputs();
      ghost var l0, l1, l2, l3 :=
        FieldLabel(inputs, YouTube), FieldLabel(inputs, WebPages),
        FieldLabel(inputs, Documents), FieldLabel(inputs, ResearchPapers);
      sourcesProvided := [];
      if Provided(state.youtubeLinks) {
        sourcesProvided := sourcesProvided + ["YouTube"];
      }
      assert sourcesProvided == l0;
      if Provided(state.webpageLinks) {
        sourcesProvided := sourcesProvided + ["Web Pages"];
      }
      assert sourcesProvided == l0 + l1;
      if Provided(state.documentPaths) {
        sourcesProvided := sourcesProvided + ["Documents"];
      }
      assert sourcesProvided == (l0 + l1) + l2;
      if Provided(state.researchPaperLinks) {
        sourcesProvided := sourcesProvided + ["Research Papers"];
      }
      assert sourcesProvided == ((l0 + l1) + l2) + l3;
      AppendRegroup(l0, l1, l2, l3);
      ProvidedSourcesUnfolds(inputs);
      ProvidedSourcesEmpty(inputs);
      if sourcesProvided == [] {
        return NoSources, sourcesProvided;
      }
      return InputsReceived, sourcesProvided;
    }

    /**
     * Second step. On `no_sources` it skips the research stage; on
     * `inputs_received` it invokes the stage once with all four fields
     * (empty ones as "Not provided") and stores the stage's text as the
     * research report, or reports the failure and leaves the report as it
     * was. Any other previous token falls through and yields no token.
     */
    method RunResearchCrew(prevOutput: Option<Status>, research: ResearchInputs -> Outcome)
      returns (status: Option<Status>)
      modifies this`researchCalls, state`researchReport
      ensures state.UserInputs() == old(state.UserInputs()) && state.finalGuide == old(state.finalGuide)
      ensures writingCalls == old(writingCalls)
      ensures old(state.researchReport).Some? ==> state.researchReport.Some?
      ensures prevOutput == Some(NoSources) ==>
        status == Some(ResearchSkipped) &&
        researchCalls == old(researchCalls) && state.researchReport == old(state.researchReport)
      ensures prevOutput == Some(InputsReceived) ==>
        var args := KickoffInputs(old(state.UserInputs()));
        researchCalls == old(researchCalls) + [args] &&
        match research(args)
        case Success(report) => status == Some(ResearchComplete) && state.researchReport == Some(report)
        case Failure => status == Some(ResearchFailed) && state.researchReport == old(state.researchReport)
      ensures prevOutput != Some(NoSources) && prevOutput != Some(InputsReceived) ==>
        status == None &&
        researchCalls == old(researchCalls) && state.researchReport == old(state.researchReport)
    {
      if prevOutput == Some(NoSources) {
        return Some(ResearchSkipped);
      } else if prevOutput == Some(InputsReceived) {
        var args := KickoffInputs(state.UserInputs());
        researchCalls := researchCalls + [args];
        match research(args)
        case Success(report) =>
          state.researchReport := Some(report);
          return Some(ResearchComplete);
        case Failure =>
          return Some(ResearchFailed);
      }
      return None;
    }

    /**
     * Third step. On `research_skipped` or `research_failed` it skips the
     * writing stage. On anything else, including no token at all, it
     * invokes the stage once with the research report as it stands and
     * stores the stage's text as the final guide, or reports the failure
     * and leaves the guide as it was.
     */
    method RunWritingCrew(prevOutput: Option<Status>, writing: Option<string> -> Outcome)
      returns (status: Status)
      modifies this`writingCalls, state`finalGuide
      ensures state.UserInputs() == old(state.UserInputs()) && state.researchReport == old(state.researchReport)
      ensures researchCalls == old(researchCalls)
      ensures IsTerminal(status)
      ensures old(state.finalGuide).Some? ==> state.finalGuide.Some?
      ensures prevOutput == Some(ResearchSkipped) || prevOutput == Some(ResearchFailed) ==>
        status == WritingSkipped &&
        writingCalls == old(writingCalls) && state.finalGuide == old(state.finalGuide)
      ensures prevOutput != Some(ResearchSkipped) && prevOutput != Some(ResearchFailed) ==>
        writingCalls == old(writingCalls) + [state.researchReport] &&
        match writing(state.researchReport)
        case Success(guide) => status == GuideComplete && state.finalGuide == Some(guide)
        case Failure => status == WritingFailed && state.finalGuide == old(state.finalGuide)
    {
      if prevOutput == Some(ResearchSkipped) {
        return WritingSkipped;
      }
      if prevOutput == Some(ResearchFailed) {
        return WritingSkipped;
      }
      writingCalls := writingCalls + [state.researchReport];
      match writing(state.researchReport)
      case Success(guide) =>
        state.finalGuide := Some(guide);
        return GuideComplete;
      case Failure =>
        return WritingFailed;
    }

    /**
     * One run of the flow: the three steps in sequence, each given the
     * previous step's token; the result is the last step's token. The
     * research step's fall-through is never taken, so the writing stage,
     * when it runs, always receives the report the research stage produced.
     */
    method Kickoff(research: ResearchInputs -> Outcome, writing: Option<string> -> Outcome)
      returns (result: Status)
      modifies this, state
      ensures state.UserInputs() == old(state.UserInputs())
      ensures IsTerminal(result)
      ensures old(state.OutputsConsistent()) ==> state.OutputsConsistent()
      ensures AllSourcesEmpty(state.UserInputs()) ==>
        result == WritingSkipped &&
        researchCalls == old(researchCalls) && writingCalls == old(writingCalls) &&
        state.researchReport == old(state.researchReport) && state.finalGuide == old(state.finalGuide)
      ensures !AllSourcesEmpty(state.UserInputs()) ==>
        var args := KickoffInputs(state.UserInputs());
        researchCalls == old(researchCalls) + [args] &&
        match research(args)
        case Failure =>
          result == WritingSkipped && writingCalls == old(writingCalls) &&
          state.researchReport == old(state.researchReport) && state.finalGuide == old(state.finalGuide)
        case Success(report) =>
          state.researchReport == Some(report) &&
          writingCalls == old(writingCalls) + [Some(report)] &&
          match writing(Some(report))
          case Success(guide) => result == GuideComplete && state.finalGuide == Some(guide)
          case Failure => result == WritingFailed && state.finalGuide == old(state.finalGuide)
    {
      var received, _ := ReceiveUserInputs();
      var researched := RunResearchCrew(Some(received), research);
      result := RunWritingCrew(researched, writing);
    }
  }

  /**
   * The program's entry point without its terminal dialogue: a fresh flow
   * over the collected inputs, run once; its result is the last token.
   * It ends with a guide exactly when some source was given and both
   * stages succeed, and skips writing exactly when no source was given or
   * the research stage failed.
   */
  method KickoffFlow(inputs: Inputs, research: ResearchInputs -> Outcome, writing: Option<string> -> Outcome)
    returns (flowResult: Status)
    ensures IsTerminal(flowResult)
    ensures flowResult == WritingSkipped <==>
      AllSourcesEmpty(inputs) || research(KickoffInputs(inputs)).Failure?
    ensures flowResult == GuideComplete <==>
      !AllSourcesEmpty(inputs) && research(KickoffInputs(inputs)).Success? &&
      writing(Some(research(KickoffInputs(inputs)).raw)).Success?
    ensures flowResult == WritingFailed <==>
      !AllSourcesEmpty(inputs) && research(KickoffInputs(inputs)).Success? &&
      writing(Some(research(KickoffInputs(inputs)).raw)).Failure?
  {
    var flow := new GuideGeneratorFlow(inputs);
    flowResult := flow.Kickoff(research, writing);
  }
}
