# Doorman agent: session record and slot-filling tools

This project models the controller of the doorman voice agent in `agent.py`.
A conversation owns one visitor record with four optional text slots:
apartment number, resident name, visitor name and visit reason.
The record also has a `confirmed` flag.
The language model calls four setter tools to fill the slots.
It then calls `confirm_visit`.
On a complete record, `confirm_visit` mails a YAML summary to the administrator and marks the record confirmed.

Layout:

- `wrappers.dfy`: `Option`, which stands for Python's `Optional[str]`.
- `agent.dfy`, module `Agent`, holds the following:
  - the record as a value (`Record`) and its slots (`Slot`);
  - Python truthiness, where `None` and `""` are both falsy (`Truthy`, `IsComplete`);
  - the summary in the key order `yaml.dump` emits (`Summarize`, `Render`);
  - the replies;
  - a reference state machine on values (`Step` over a `Session` of record and mail log).
  It also holds the imperative form the source has:
  - the mutable `VisitorData` class;
  - an `Outbox` standing for the mail server;
  - the methods `UpdateApartment`, `UpdateResident`, `UpdateVisitor`, `UpdateReason`, `ConfirmVisit` and `SendEmail`.
  Each tool method is proved against `Assign` or `Step`.
- `agent_properties.dfy`, module `AgentProperties`: lemmas about single tool calls and about whole conversations.
  A conversation (`Run`) is a sequence of tool calls.
  The module also has one example conversation that goes through the tool methods.

Facts about `agent.py` that the model keeps:

- The code keeps no resident directory and has no "rejected" state.
- A confirmed record is not sealed. The setters still write to it (`SettersWriteAfterConfirm`).
- A second `confirm_visit` on a complete record mails the summary again (`ConfirmTwiceSendsTwice`). Confirmation is therefore not idempotent.
- The dict literal at agent.py:29-34 lists `visitor_name` before `visit_reason`. `yaml.dump` sorts the keys by default, so the summary comes out as `apartment_number`, `resident_name`, `visit_reason`, `visitor_name`.
- A setter given the empty string stores `""`. The summary then reports that slot as `unknown`, and `confirm_visit` treats it as missing.

## Model

| member | source | states |
|---|---|---|
| `Agent.VisitorData.constructor` | agent.py:20-26 | a new record has all four slots absent and is not confirmed |
| `Agent.Assign` | agent.py:68 | writing a slot gives it the new value and leaves the other three slots and the flag as they were |
| `Agent.Summarize` | agent.py:28-34 | the summary has four entries, one per slot, each holding the slot's value or `"unknown"`; each key sorts before the next one, which is the order `yaml.dump` emits by default |
| `Agent.Step` | agent.py:63-104 | a tool call mails nothing or exactly the summary of the record it was made on; the record becomes confirmed only if it was already confirmed or was complete; the flag changes only when a summary is mailed |
| `Agent.SendEmail` | agent.py:38-45 | sending appends exactly the given summary to the mail log |
| `Agent.UpdateApartment` | agent.py:63-69 | overwrites the apartment slot only and replies `Apartment number recorded as <v>.` |
| `Agent.UpdateResident` | agent.py:71-77 | overwrites the resident slot only and replies `Resident name recorded as <v>.` |
| `Agent.UpdateVisitor` | agent.py:79-85 | overwrites the visitor slot only and replies `Visitor name recorded as <v>.` |
| `Agent.UpdateReason` | agent.py:87-93 | overwrites the reason slot only and replies `Reason for visit recorded as: <v>.` |
| `Agent.ConfirmVisit` | agent.py:95-104 | the new record, the new mail log and the reply are those `Step` gives for a confirm call on the old record and log |
| `AgentProperties.SummaryValue` | agent.py:30-33 | a slot that is neither absent nor empty is reported as its value; any other slot is reported as `"unknown"` |
| `AgentProperties.SummaryKeys` | agent.py:29-34 | the summary's keys are exactly apartment_number, resident_name, visit_reason, visitor_name, in that order |
| `AgentProperties.SummarySorted` | agent.py:29 | every two keys of the summary are in strictly ascending string order, so no key repeats |
| `AgentProperties.SummaryIgnoresConfirmed` | agent.py:28-34 | the summary does not depend on the confirmation flag |
| `AgentProperties.SetterEffect` | agent.py:63-93 | a setter call writes its own slot, keeps the other slots, the flag and the mail log, and replies with its acknowledgement |
| `AgentProperties.LastWriteWins` | agent.py:68-69 | setting a slot twice leaves the session as if only the second call had been made, and the summary then shows the second value when it is non-empty |
| `AgentProperties.ConfirmIncomplete` | agent.py:98-99 | confirming a record with a falsy slot leaves the record and the mail log unchanged and replies with the missing-information message |
| `AgentProperties.ConfirmComplete` | agent.py:101-104 | confirming a complete record mails its summary exactly once, sets the flag, keeps the slots, and gives a reply that ends with the rendered summary |
| `AgentProperties.SettersWriteAfterConfirm` | agent.py:68-103 | after a successful confirm, a setter still overwrites its slot (the record is not sealed) |
| `AgentProperties.ConfirmTwiceSendsTwice` | agent.py:95-104 | two confirm calls on a complete record mail the same summary twice |
| `AgentProperties.RunSlot` | agent.py:63-93 | after any sequence of calls, each slot holds the value of its last setter call, or its old value if there was none |
| `AgentProperties.RunLog` | agent.py:95-104 | over any sequence of calls the mail log only grows, and it grows by at most one summary per confirm call |
| `AgentProperties.ConfirmedIffMailed` | agent.py:98-103 | from a fresh record, the record is confirmed exactly when at least one summary has been mailed |
| `AgentProperties.ConfirmSucceedsIff` | agent.py:98-104 | after any sequence of calls from a fresh record, a confirm call mails a summary if and only if the last value given for every slot is non-empty |
| `AgentProperties.ExampleVisit` | agent.py:63-104 | a conversation through the tool methods, in which the reason is corrected once, mails exactly one summary, which holds the final values; the reply embeds that summary |

## Left out

- `send_email` is modelled as an append to the `Outbox` log of summaries. MIME construction, the subject and addresses, and SMTP delivery are network I/O and are left out. `SendEmail` can never fail. In the source, an SMTP error raised at agent.py:102 escapes `confirm_visit` before line 103 runs: the record stays unconfirmed and no reply is returned. The model does not capture that path.
- `yaml.dump` formatting: the summary is an ordered sequence of key/value pairs. `Render` approximates the YAML text as one `key: value` line per entry, without YAML's quoting and escaping (for example, `12` would be quoted by YAML).
- `DoormanAgent`, `on_enter`, the `@function_tool` registration, tool dispatch by the language model, `RunContext` and the `async` machinery belong to the LiveKit framework. The tool methods take the record (and, for confirmation, the outbox) directly.
- `entrypoint` and `cli.run_app` cover room connection, speech, language-model and voice-activity configuration and the translation instruction. All of these are external engines and transport.
- Resident-directory validation, a rejected state, sealing a confirmed record and idempotent confirmation do not exist in the code. They are not modelled. The lemmas `SettersWriteAfterConfirm` and `ConfirmTwiceSendsTwice` show that the code does not seal the record and does not make confirmation idempotent.
