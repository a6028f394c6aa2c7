# Guide generation flow: a Dafny model of the flow controller

The guide generator runs a two-stage "research, then write" pipeline. A
state record holds four optional source fields (YouTube links, document
paths, web page links, research paper links) and two outputs (the research
report and the final guide). Three steps run in sequence, each handing a
status token to the next:

1. `receive_user_inputs` collects the labels of the sources that were given,
   in the fixed order YouTube, Web Pages, Documents, Research Papers, and
   returns `no_sources` when there are none and `inputs_received` otherwise.
2. `run_research_crew` skips on `no_sources` (`research_skipped`). On
   `inputs_received` it starts the research stage with all four fields, each
   empty one replaced by `"Not provided"`. It stores the stage's text as the
   report (`research_complete`) or turns the stage's exception into
   `research_failed`. Any other token falls through the `if`/`elif` and the
   step returns `None`.
3. `run_writing_crew` skips on `research_skipped` or `research_failed`
   (`writing_skipped`). On any other token, `None` included, it starts the
   writing stage with the report as it stands. It stores the stage's text as
   the guide (`guide_complete`) or turns the exception into `writing_failed`.

Files:

- `optional.dfy`: module `Optional`, the `Option` type used for Python's
  `Optional[str]` and `str | None`.
- `sources.dfy`: module `Sources`, the pure part. It defines Python
  truthiness of a field (`None` and `""` are both false), the ordered list of
  labels of the given sources with its membership, order and emptiness lemmas, and
  the `or "Not provided"` substitution that builds the research stage's
  arguments.
- `flow.dfy`: module `GuideFlow`, the imperative part. It has the status
  tokens and their string literals, the state record as class
  `ResearchFlowState`, and class `GuideGeneratorFlow` with the three steps
  as methods that update the shared state in place. It also has `Kickoff`,
  which runs the three steps in sequence, and `KickoffFlow`, a fresh flow
  run once.

The research and writing stages are opaque. Each is a parameter: a total
function from the stage's arguments to an `Outcome`, either `Success(raw)`
(the stage result's `raw` text) or `Failure` (any `Exception` raised while
building or running the stage, which is what the steps catch). Each stage runs at most once per run, so a
function parameter stands for an arbitrary outcome of that one call. The flow
object keeps ghost logs, `researchCalls` and `writingCalls`, of the
arguments each stage was started with. The contracts use them to say that a
stage was not started, or was started once with given arguments.

The writing step is meant to run only after the research stage has
succeeded. The code tests only for the two skip tokens, so it also runs on
`None`, the value of the research step's fall-through, and then hands the
stage a report that may be `None`. The model follows the code. In a run of
the whole flow the fall-through cannot happen, because the first step only
returns `no_sources` or `inputs_received`; `Kickoff` states this.

The three steps are called in sequence, each given the previous step's
token. The scheduling of the agent framework is not modelled. A previous
token is an `Option<Status>`, where `None` is Python's `None`.

## Model

| member | source | states |
|---|---|---|
| `Sources.ProvidedKinds` | src/guide_generation_flow/main.py:61-70 | The reference definition of the collected list: the kinds, in check order, whose field is truthy. Its contract only bounds the length; its meaning is stated by the lemmas below. |
| `Sources.ProvidedKindsMember` | src/guide_generation_flow/main.py:63-70 | A kind is kept exactly when it is listed and its field is non-empty, so no given source is dropped and no empty one is kept. |
| `Sources.ProvidedKindsOrdered` | src/guide_generation_flow/main.py:61-70 | The kept kinds stay in the order in which the fields are checked. |
| `Sources.StrictlyRankedUnique` | src/guide_generation_flow/main.py:61-70 | Two lists in check order that hold the same kinds are equal, so order plus membership pins down the collected list. |
| `Sources.ProvidedKindsInCheckOrder` | src/guide_generation_flow/main.py:61-70 | The kinds collected in check order are ordered, hold exactly the kinds with a non-empty field, and are the only ordered list that does. |
| `Sources.ProvidedSourcesMember` | src/guide_generation_flow/main.py:63-70 | For one source kind: its label is collected exactly when its field is neither `None` nor empty. |
| `Sources.ProvidedSourcesMembers` | src/guide_generation_flow/main.py:61-70 | A source's label is collected exactly when its field is neither `None` nor empty, and no label appears twice. |
| `Sources.ProvidedSourcesOrdered` | src/guide_generation_flow/main.py:63-70 | Collected labels keep the order YouTube, Web Pages, Documents, Research Papers. |
| `Sources.ProvidedSourcesEmpty` | src/guide_generation_flow/main.py:72-75 | The collected list is empty exactly when all four fields are `None` or empty. |
| `Sources.ProvidedSourcesUnfolds` | src/guide_generation_flow/main.py:61-70 | The collected list is the four one-field checks concatenated: YouTube, then web pages, then documents, then research papers. |
| `Sources.OrNotProvided` | src/guide_generation_flow/main.py:114-117 | `field or "Not provided"` is never empty. It is the field itself when truthy and the literal `"Not provided"` otherwise. |
| `Sources.KickoffInputs` | src/guide_generation_flow/main.py:113-118 | The research stage gets all four fields. Each non-empty field passes unchanged, each empty or `None` field becomes `"Not provided"`, and no argument is empty. |
| `Sources.KickoffInputsIgnoresEmptiness` | src/guide_generation_flow/main.py:113-118 | Inputs that agree on their non-empty fields give the same stage arguments, so the stage cannot tell `None` from `""`. |
| `Sources.DefaultInputsEmpty` | src/guide_generation_flow/main.py:32-35 | A state left at its defaults (every field `""`) has no given source: nothing is collected and every research argument is `"Not provided"`, so by `KickoffFlow` the run ends in `writing_skipped`. |
| `GuideFlow.LiteralInjective` | src/guide_generation_flow/main.py:75-185 | The eight status strings are pairwise distinct, so comparing the program's strings is comparing tokens. |
| `GuideFlow.ResearchFlowState.constructor` | src/guide_generation_flow/main.py:29-39 | A new state holds the given source fields and no report and no guide. |
| `GuideFlow.GuideGeneratorFlow.constructor` | src/guide_generation_flow/main.py:253 | A new flow owns a fresh state with the given inputs, and neither stage has been started. |
| `GuideFlow.GuideGeneratorFlow.ReceiveUserInputs` | src/guide_generation_flow/main.py:55-80 | The labels are collected by appending in check order and equal the ordered list of given sources. The token is `no_sources` exactly when all four fields are empty, and otherwise `inputs_received`. |
| `GuideFlow.GuideGeneratorFlow.RunResearchCrew` | src/guide_generation_flow/main.py:84-132 | On `no_sources`: `research_skipped`, no stage call, state unchanged. On `inputs_received`: exactly one call with the substituted fields, then either `research_complete` with the report set to the stage's text, or `research_failed` with the report unchanged. On any other token: `None`, no call, no change. Source fields, guide and writing log are never touched, and a set report is never cleared. |
| `GuideFlow.GuideGeneratorFlow.RunWritingCrew` | src/guide_generation_flow/main.py:136-185 | On `research_skipped` or `research_failed`: `writing_skipped`, no stage call, guide unchanged. On anything else, `None` included: exactly one call with the current report as its only argument, then either `guide_complete` with the guide set to the stage's text, or `writing_failed` with the guide unchanged. The result is always terminal, and source fields and report are never touched. |
| `GuideFlow.GuideGeneratorFlow.Kickoff` | src/guide_generation_flow/main.py:54-185 | The three steps in sequence always end in `writing_skipped`, `guide_complete` or `writing_failed`. With no sources, neither stage is started and nothing changes. Otherwise research is started once with the substituted fields. After a research failure, writing is skipped. After a research success, the report is the stage's text and the writing stage gets exactly that text. The guide is set only on `guide_complete`, the source fields never change, and "a guide implies a report" is preserved. |
| `GuideFlow.KickoffFlow` | src/guide_generation_flow/main.py:253-256 | A run of a fresh flow ends in a terminal token. It is `guide_complete` exactly when some source is given and both stages succeed, `writing_failed` exactly when research succeeds and writing fails, and `writing_skipped` exactly when no source is given or research fails. |

## Left out

- Terminal input (`get_inputs`, src/guide_generation_flow/main.py:188-242) and all `print` output. These are console I/O. The labels that `receive_user_inputs` only prints are returned by `ReceiveUserInputs` instead.
- The console part of the entry point `kickoff` (src/guide_generation_flow/main.py:246-261). `KickoffFlow` models only the creation and the run of the flow.
- The environment-variable changes and the `.env` loading at module load (src/guide_generation_flow/main.py:1-26). These are process-wide side effects with no logic to state.
- The research and writing crews (src/guide_generation_flow/crews/research_crew/research_crew.py, src/guide_generation_flow/crews/writing_crew/writing_crew.py) and the language-model settings (src/guide_generation_flow/llms.py). They configure an external agent framework. Each crew is an opaque outcome, and an `Exception` raised while building or running a crew inside a step counts as a stage failure.
- The `GROQ_API_KEY` check (src/guide_generation_flow/crews/research_crew/research_crew.py:44-45). It runs when the research crew module is imported, which happens when src/guide_generation_flow/main.py:20 is loaded, outside any step's `try`. A missing key is a fatal startup configuration error: the process stops before `receive_user_inputs` runs, so no step runs and no token is produced. It is environment I/O and is not modelled.
- A `BaseException` outside `Exception` (such as `KeyboardInterrupt` or `SystemExit`) raised while a stage runs. The steps catch only `Exception` (src/guide_generation_flow/main.py:130, 183), so such an exception ends the run with no token and no write to the state. The model has no such outcome: every step returns a token.
- The framework's `@start`/`@listen` triggering. The three steps are called directly in sequence.
- The exception message of a failed stage. The source only prints it, so `Failure` carries no payload.
- Tokens outside the eight the program uses. A previous token is one of those eight or `None`. An arbitrary other string would take the same fall-through branches as the tokens that are not named.
