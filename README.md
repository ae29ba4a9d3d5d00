# AI Interview Coach — the credential-free fallback, in Dafny

The interview coach has two operations. `generate_interview_question(role,
difficulty)` returns an interview question. `evaluate_interview_answer(question,
role, difficulty, user_answer)` grades a candidate's answer. Both normally
delegate to a language-model agent. When no API key is configured they compute
the result locally instead. When the agent call raises, they return a fixed
record that depends only on the role. This project models those local paths of `backend/agent.py` and proves
what they promise.

Modules:

- `Wrappers`: `Option`, used for optional fields and for the outcome of the
  agent call.
- `Schemas`: the records `InterviewQuestion` and `EvaluationResult`.
- `Config`: `KeyMissing`, Python's `not API_KEY`. The key is unset (`None`) or
  empty.
- `Text`: the three Python string operations the heuristic uses, on ASCII
  text. `Split` is `str.split()` with no separator. `ToLower` is `str.lower()`.
  `Contains(s, k)` is `k in s`.
- `Questions`: the role → difficulty → questions catalog and the no-key
  question. `pick` stands for the index `random.choice` draws. Also the
  agent-error question and the whole operation `GenerateInterviewQuestion`.
- `Scoring`: the length tiers, the keyword boost and the no-key evaluation
  `MockEvaluation`. Also the agent-error result and the whole operation
  `EvaluateInterviewAnswer`.

The outcome of the agent call is a parameter `agentReply`. `None` means the call
raised. `Some(x)` means the agent returned `x`, which is passed on unchanged.

The evaluation agent is asked for "a score out of 10" (backend/agent.py:42),
and the page shows the score as "/10" (frontend/pages/index.js:167). Yet
`evaluate_interview_answer` returns the agent's record without checking or
clamping its score (backend/agent.py:174-175). The model follows the code:
the bound [0, 10] is proved for the two fallback paths only (see `Left out`).

## Model

| member | source | states |
|---|---|---|
| `Config.KeyMissing` | backend/agent.py:52 | the key read at line 11 counts as missing exactly when it is unset (`None`) or the empty string. This test picks the local path here and at line 130 |
| `Text.Split` | backend/agent.py:132 | every token `str.split()` returns is non-empty and holds no whitespace |
| `Text.WordCountIsWordStarts` | backend/agent.py:132 | `len(answer.split())` equals the number of maximal non-whitespace runs. These are counted by an independent one-pass scan, `WordStarts` |
| `Text.SameSpacingSameWordCount` | backend/agent.py:132 | the word count depends only on where the whitespace is |
| `Text.BlankHasNoWords` | backend/agent.py:132 | an empty or whitespace-only text has 0 words |
| `Text.SplitJoinWords` | backend/agent.py:132 | splitting `" ".join(words)` gives `words` back when every word is a valid token |
| `Text.ToLower` | backend/agent.py:153 | `lower()` keeps the length and lowers each character on its own |
| `Text.LowerChar` | backend/agent.py:153 | a capital `A`–`Z` becomes the lowercase letter at the same alphabet position (`'S'` to `'s'`). Any other character is unchanged. The result is never a capital and keeps its whitespace status |
| `Text.LowerKeepsSpacing` | backend/agent.py:153 | two texts that lower to the same text have whitespace at the same positions |
| `Text.ContainsIff` | backend/agent.py:153 | `k in s` holds exactly when `k` occurs in `s` at some index |
| `Questions.CatalogShape` | backend/agent.py:54-106 | the catalog has exactly the roles SDE, Data Analyst and SDET. Each role has exactly Easy, Medium and Hard. Each pair has three questions |
| `Questions.QuestionPool` | backend/agent.py:108 | the chained `.get` lookup gives the catalog list for a known (role, difficulty) pair. For any other pair it gives the one-element list holding the generic question that names the role |
| `Questions.MockQuestion` | backend/agent.py:109-115 | the no-key question is drawn from the pool. Its context is `"Mock Question (AI key missing) - " + difficulty + " level - " + role`. It has exactly the three fixed key points |
| `Questions.CatalogPairDrawsFromItsList` | backend/agent.py:54-109 | for a catalog pair, the question is the picked entry of exactly that pair's list |
| `Questions.UnknownPairGivesGenericQuestion` | backend/agent.py:108-109 | for an unknown role or difficulty, the only possible pick is 0. The question is `"Tell me about a challenge you faced as a " + role + "."` |
| `Questions.EveryPoolQuestionCanBePicked` | backend/agent.py:109 | every question of the pool is returned for some pick, so the random choice can reach every entry |
| `Questions.AgentErrorQuestion` | backend/agent.py:123-127 | the agent-error question names the role. Its context is "Fallback Question (AI Error)". Its key points are Responsibilities, Skills and Impact |
| `Questions.FallbackTiersDiffer` | backend/agent.py:111-127 | the agent-error question never equals a no-key question |
| `Questions.GenerateInterviewQuestion` | backend/agent.py:51-127 | without a key, the result is the no-key question. With a key, a failed agent call gives the agent-error question and a successful one is passed through |
| `Questions.AgentErrorIgnoresCatalog` | backend/agent.py:117-127 | with a key and a failed call, the result depends on the role alone. Neither the difficulty nor the pick matters |
| `Scoring.LengthTier` | backend/agent.py:138-149 | the base score is 3, 6 or 8. It is 3 exactly below 10 words and 8 exactly from 30 words up |
| `Scoring.LengthTierMonotone` | backend/agent.py:138-149 | more words never give a lower base score |
| `Scoring.AnyOccursIff` | backend/agent.py:153 | `any(k in text for k in keywords)` holds exactly when some keyword occurs in the text |
| `Scoring.KeywordBoostIff` | backend/agent.py:152-153 | the boost fires exactly when one of the seven terms occurs as a substring of the lowered answer |
| `Scoring.KeywordTriggersBoost` | backend/agent.py:152-155 | any single term, in any case and at any position, triggers the boost |
| `Scoring.MockEvaluation` | backend/agent.py:129-163 | score = base + 1 when a keyword occurs, otherwise base, so the boost adds exactly one and the `min(10, ·)` cap never applies. The score is one of 3, 4, 6, 7, 8, 9 and so lies in [0, 10]. Missing points are the tier's. Feedback is `"Mock Evaluation: "` + tier message + (`" Good use of technical vocabulary."` once when boosted) + `" (Based on answer length & keywords)"`. Tips are the three fixed tips. The model answer holds the question right after its opening |
| `Scoring.WordCountTiers` | backend/agent.py:132-155 | below 10 words: score 3 or 4, missing Depth of explanation, Examples, Technical terminology. From 10 to 29 words: 6 or 7, missing Concrete examples, Trade-offs. From 30 words: 8 or 9, missing Edge cases, Scalability considerations |
| `Scoring.MockEvaluationIgnoresRoleAndDifficulty` | backend/agent.py:157-163 | role and difficulty never change the heuristic result |
| `Scoring.MockEvaluationIgnoresCase` | backend/agent.py:132-155 | answers that lower to the same text, such as "SCALE" and "scale", get identical results |
| `Scoring.BlankHasNoKeyword` | backend/agent.py:152-153 | no keyword occurs in an empty or whitespace-only answer, so such an answer is never boosted |
| `Scoring.BlankAnswerScoresThree` | backend/agent.py:132-155 | an empty or whitespace-only answer scores exactly 3 with the short-tier missing points and no vocabulary note |
| `Scoring.LongAnswerWithKeywordScoresNine` | backend/agent.py:138-159 | an answer of 30 or more words that contains "latency" in any case scores 9. Its feedback holds the strong-answer message followed by the vocabulary note |
| `Scoring.AgentErrorEvaluation` | backend/agent.py:178-184 | the agent-error result has score 5, the fixed "unavailable" feedback, model answer "Unavailable", and no missing points or tips |
| `Scoring.FallbackTiersDiffer` | backend/agent.py:133-184 | the heuristic never gives the agent-error score 5 |
| `Scoring.EvaluateInterviewAnswer` | backend/agent.py:129-184 | without a key, the result is the heuristic. With a key, a failed agent call gives the constant result and a successful one is passed through. On both fallback paths the score lies in [0, 10] |

## Left out

- Agent construction and the model calls (backend/agent.py:22-47, 117-120, 165-175): these are a foreign library and a network call. Their outcome is the parameter `agentReply`, and the prompts they send are not modelled.
- Loading the environment, setting the OpenAI variables and the `print` warnings (backend/agent.py:8-20, 122, 177): process configuration and I/O. The key check is `Config.KeyMissing` on an `Option<string>`.
- `random.choice` (backend/agent.py:109): replaced by the caller's index `pick`. Uniformity of the draw is not modelled. `EveryPoolQuestionCanBePicked` states only that every entry is reachable.
- `async`/`await`: both operations are modelled as plain functions.
- Unicode: `IsSpace` knows only Python's ASCII whitespace (9–13, 28–32). `LowerChar` lowers only `A`–`Z`. Python also splits on other Unicode whitespace (U+0085, U+00A0, U+2000…) and lowers non-ASCII letters, and the model treats those characters as ordinary letters left unchanged.
- `Questions.CatalogPairDrawsFromItsList` does not state that a catalog question differs from the generic fallback question. The verifier cannot see inside string literals this long.
- `Scoring.EvaluateInterviewAnswer`: the score bound [0, 10] is stated only for the two fallback paths. The code returns the agent's record unchecked.
- backend/main.py (HTTP routing, CORS, error-to-500 mapping), the schema library's validation in backend/schemas.py, including the `Literal` role and difficulty checks of `InterviewConfig`, and frontend/pages/index.js are not part of this model.
