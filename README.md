# AMLSim alert groups in Dafny

A model of the `Alert` class of AMLSim (`src/amlsim/Alert.java`). An alert is a
group of accounts bound to one transaction-pattern model (an `AMLTypology`).
The alert:

- keeps its members in joining order and records itself on every member it adds,
  so the membership link goes both ways;
- holds an optional subject ("main") account; the group is a SAR (suspicious)
  exactly when that account is set, and `isSAR` derives this from the field;
- names one representative ("primary") account: the subject, else the first
  member, else none;
- at each simulation step, forwards an account to the model's
  `sendTransactions` only when the model says the step is valid.

Everything is in `alert.dfy`, module `AMLSim`. The classes keep the source's form:

- `Alert` has the same fields. `alertID` and `model` are `const`, because Java
  never reassigns them after construction. `members` is a `seq<Account>` that
  `AddMember` reassigns. `mainAccount` is a nullable `Account?`.
- `Account` is reduced to its `alertGroups` list.
- `AMLTypology` is reduced to three things: an abstract activation rule
  `isValid`, the `alert` back-reference, and a ghost log `sent`. The log holds
  every emission the model was asked to make; its length is the call count.

The state-changing methods state their whole new state. They are tied to a
value-level `Snapshot` (members, subject) through `Snapshot.Apply`. The lemmas
about `Replay` (a sequence of `addMember`/`setMainAccount` calls) cover what
several calls together promise: the member list only grows, in joining order;
the representative is stable; the latest designation decides the
classification. The lemmas about `Emitted` do the same for a run of
`registerTransactions` calls. At each step, the model is asked to emit exactly
once per call when the step is valid, and never otherwise. Two client methods,
`GroupLifecycle` and `IndependentModels`, show what a caller can conclude from
the contracts alone. One example is a group with members A, B, C. Another is
that triggering one alert leaves another alert's model untouched.

Where the source leaves the behaviour open, the model does what the code does:

- `setMainAccount` accepts null, which makes the group benign again.
- `setMainAccount` may be called more than once; each call overwrites the subject.
- The subject is not required to be a member.
- A model may be handed to a second alert. The constructor then simply resets
  the model's back-reference.

## Model

| member | source | states |
|---|---|---|
| `AMLSim.Alert.constructor` | src/amlsim/Alert.java:20-27 | the id and model are the ones passed in; members empty, no subject, not a SAR, no primary account; the model's back-reference is this alert and nothing was emitted |
| `AMLSim.Alert.RegisterTransactions` | src/amlsim/Alert.java:33-37 | the model is sent `(step, acct)` exactly once when `isValidStep(step)` holds and is sent nothing otherwise; the alert's own fields and the model's back-reference are unchanged |
| `AMLSim.Alert.AddMember` | src/amlsim/Alert.java:43-46 | members become the old members followed by `acct`; the subject is unchanged; `acct` records this alert at the end of its alert groups; the two-way membership link is preserved |
| `AMLSim.Alert.GetAlertID` | src/amlsim/Alert.java:60-62 | returns the identifier fixed at construction |
| `AMLSim.Alert.GetMembers` | src/amlsim/Alert.java:68-70 | returns the member list; while the link holds, every returned account lists this alert among its groups |
| `AMLSim.Alert.GetMainAccount` | src/amlsim/Alert.java:76-78 | returns the subject account, which is non-null exactly when the alert is a SAR |
| `AMLSim.Alert.PrimaryAccount` | src/amlsim/Alert.java:86-94 | a SAR gives its subject; a benign alert with no members gives null; a benign alert with members gives the first member |
| `AMLSim.Alert.SetMainAccount` | src/amlsim/Alert.java:100-102 | the subject becomes the argument, with no membership check; the alert is a SAR exactly when the argument is non-null; members are unchanged |
| `AMLSim.Alert.GetModel` | src/amlsim/Alert.java:104-106 | returns the model bound at construction |
| `AMLSim.Alert.IsSAR` | src/amlsim/Alert.java:108-110 | true exactly when a subject account is set; derived from that field, never stored |
| `AMLSim.Account.AddAlertGroup` | src/amlsim/Alert.java:45 | appends the alert to the account's alert groups, keeping the earlier ones |
| `AMLSim.AMLTypology.IsValidStep` | src/amlsim/Alert.java:34 | pure: whether the model's fixed activation rule accepts `step` |
| `AMLSim.AMLTypology.SetAlert` | src/amlsim/Alert.java:25 | the model's back-reference becomes the given alert; nothing is emitted |
| `AMLSim.AMLTypology.SendTransactions` | src/amlsim/Alert.java:35 | records one emission for `(step, acct)`; the back-reference is unchanged |
| `AMLSim.Snapshot.Primary` | src/amlsim/Alert.java:80-94 | a SAR is represented by its subject; there is a representative exactly when the group is a SAR or has members; it is the subject or a member, and for a benign group it is the first member |
| `AMLSim.ReplayMembers` | src/amlsim/Alert.java:43-46 | after any sequence of `addMember`/`setMainAccount` calls, the members are the earlier members followed by the joining accounts in joining order |
| `AMLSim.JoinsKeepSubject` | src/amlsim/Alert.java:43-46 | `addMember` calls never change the subject account or the SAR classification |
| `AMLSim.PrimaryStable` | src/amlsim/Alert.java:86-93 | once a group has a representative, later `addMember` calls never change it |
| `AMLSim.FirstJoinerRepresents` | src/amlsim/Alert.java:89-93 | a new alert that has only had members added is benign and is represented by its first member |
| `AMLSim.DesignationDecides` | src/amlsim/Alert.java:100-110 | after `setMainAccount(f)`, the alert is a SAR exactly when `f` is non-null, and a non-null `f` stays the representative whatever members join later |
| `AMLSim.LatestDesignationDecides` | src/amlsim/Alert.java:100-110 | whatever calls came before, after the latest `setMainAccount(f)` and any later `addMember` calls, the alert is a SAR exactly when `f` is non-null, and a non-null `f` is the representative |
| `AMLSim.EmittedPerStep` | src/amlsim/Alert.java:33-37 | over any run of `registerTransactions` calls, the model is asked to emit at a step once per call for that step if the step is valid, and zero times otherwise |
| `AMLSim.EmittedOnlyValid` | src/amlsim/Alert.java:33-37 | every emission passed on is one of the calls and is for a valid step; there are no more emissions than calls |
| `AMLSim.EmittedAppend` | src/amlsim/Alert.java:33-37 | two batches of calls, one after the other, pass on each batch's emissions, in order |

## Left out

- `getSimulator()` and the `amlsim` field. They only point to the simulation engine and have no logic of their own.
- The typology's own step-validity rule and transaction generation (amounts, timing, counterparties). These are in `AMLTypology` and its subclasses, which are not part of this model. `isValid` is an abstract function fixed when the model is created.
- `AMLSim.AMLTypology.SendTransactions`: records the request and changes nothing else. The real method creates transactions and moves balances between accounts; that is not modelled.
- Account balances, ledger behaviour and the rest of `Account`. `Account.java` is not part of this model; only the alert-group list that `addMember` appends to is kept.
- `AMLSim.Alert.SetMainAccount`: takes any `Account?`, not a `SARAccount`. The `SARAccount` subclass is not modelled.
- `AMLSim.Alert.GetMembers`: returns the member list as a value. Java returns the live `ArrayList`, so a caller could change the alert's members through it; that aliasing is not modelled.
- `AMLSim.Alert.AddMember`, `AMLSim.Alert.RegisterTransactions` and `AMLSim.Alert.constructor`: their parameter types exclude null accounts and a null model. In Java, `addMember(null)` appends null and then throws on `acct.addAlertGroup`, leaving a null member behind. `registerTransactions(step, null)` passes null on to the model. `new Alert(id, null, sim)` throws on `model.setAlert`. These null paths are not modelled.
- The simulation step loop that drives `registerTransactions`, and any concurrency across alerts. Both sit outside this class.
