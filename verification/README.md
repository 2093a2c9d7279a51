# email-service, modelled in Dafny

This project models the core of the email notification service: a Go
microservice that sends templated notification mails of eighteen kinds and
manages short-lived email verification codes. It serves two transports,
an RPC API and an HTTP API.

The model covers:

- **Configuration** (`kinds.dfy`, `templates.dfy`, `email_config.dfy`).
  - The eighteen notification kinds and the shared per-kind data each one
    points at (enabled flag, parsed template, remote path, subject).
  - The default template block.
  - The start-up pass, which copies the template directory into every
    template and then verifies each one. Verifying a template either
    disables its kind or installs the loaded template and its subject.
  - The SMTP settings checks, in source order. The port check refuses
    65535 itself (`port >= 65535`), as the code does.
- **Payloads** (`payloads.dfy`): the payload structs, the three sender
  sentinels and the `Validators` table. Each validator is a pure
  type-assertion on the payload.
- **Verification codes** (`codes.dfy`). The code manager keeps two expiring
  stores keyed by the lower-cased address: codes and cooldown marks.
  - Generation is refused while a cooldown mark is live, with the
    remaining wait.
  - Verification reports expired, or invalid (keeping the entry), or
    success (consuming the entry).
  - Removal drops the code only.
  - Pure functions define the behaviour. The `CodeManager` class updates
    its stores in place and is proved against them.
- **Sending** (`sender.dfy`): `SendEmail` checks, in order, that the kind is
  enabled, that it is registered, and that the payload is valid. It then
  lower-cases the recipient, renders, builds the message and delivers it.
  Rendering and delivery are function parameters.
- **RPC adapter** (`grpc.dfy`).
  - The reflective required-field check. It is a loop that stops at the
    first empty string field.
  - The seventeen send handlers, with their message-to-payload mapping.
  - The sender-error-to-status mapping.
  - The verify and remove handlers.
- **HTTP flow** (`service.dfy`) and **request validation**
  (`address.dfy`).
  - The code request: generate, then send, then map the outcome to an API
    status.
  - The address regular expression `^[\w-]+@[\w-]+(\.[\w-]+)+$`, written
    as an automaton and proved equal to a direct description of the
    address shape.
  - The lower bound on the control id.

Shared helpers are in `text.dfy`:
- ASCII lower-casing;
- the `%04d` control-id formatting, with its decimal round trip;
- the `Option`/`Result` wrappers in `wrappers.dfy`.

Time is an integer clock, in seconds. The code manager reads the clock
once per call.

## Model

| member | source | states |
|---|---|---|
| Text.ToLower | src/email/code.go:41 | lower-casing keeps the length and maps each character by itself, ASCII letters down |
| Text.ToLowerIdempotent | src/email/code.go:41 | lower-casing an already lower-cased key changes nothing |
| Text.EqualFoldSameKey | src/email/code.go:41 | two addresses equal up to case give the same store key |
| Text.FormatCid | src/email/code.go:51 | `%04d` yields at least four characters: all digits for a non-negative id, a '-' and digits otherwise |
| Text.FormatCidRoundTrip | src/email/code.go:51 | for a non-negative id the formatted string is all digits and reads back as the id; it has exactly four characters below 10000, otherwise as many as the id's digits |
| Kinds.Id | src/interfaces/config/email.go:222-239 | the enum string values; `IdInjective` proves them pairwise distinct |
| Kinds.RemotePath | src/interfaces/config/email.go:222-239 | every remote path is a file inside `/docker/data/template/` with the `.template` extension, named after the id except for the rating-change kind's `atc_rating_change` |
| Kinds.InitialData | src/interfaces/config/email.go:222-239 | each enum value starts enabled, with no template and no subject |
| Kinds.Index | src/interfaces/config/email.go:242-261 | every kind sits at a position of the `Emails` list |
| Kinds.AllKindsEnumeration | src/interfaces/config/email.go:242-261 | `Emails` lists exactly eighteen kinds, pairwise distinct, and none is missing |
| Kinds.IdInjective | src/interfaces/config/email.go:222-239 | the enum string values are pairwise distinct |
| Kinds.RemotePathInjective | src/interfaces/config/email.go:222-239 | distinct kinds download distinct template files |
| Payloads.KindOf | src/interfaces/email/email.go:24-145 | every payload struct belongs to a kind and a value of any other type to none; the `Validators` table (src/interfaces/email/email.go:147-166) is checked against it by the lemmas below |
| Payloads.ValidatorsComplete | src/interfaces/email/email.go:147-166 | every kind has a validator, and the table's keys are exactly the `Emails` kinds |
| Payloads.ValidatorAcceptsOwnType | src/interfaces/email/email.go:147-166 | a kind's validator accepts a payload iff it is that kind's own struct |
| Payloads.ValidatorsDisjoint | src/interfaces/email/email.go:147-166 | no payload is accepted by two kinds' validators |
| Payloads.ValidatorIgnoresFields | src/interfaces/email/email.go:147-166 | validation depends on the struct type only, never on field contents |
| Payloads.ForeignPayloadRejected | src/interfaces/email/email.go:147-166 | a value of any other type is rejected by every validator |
| Templates.LoadError | src/interfaces/config/email.go:31-48 | a disabled template reports no error; an enabled one reports the loader's error |
| Templates.Apply | src/interfaces/config/email.go:31-53 | disabled: the kind is switched off; load error: data unchanged; loaded: template and subject installed and kind enabled; remote path always kept |
| Templates.VerifyTemplate | src/interfaces/config/email.go:31-53 | only the template's own kind changes; its error is the load error |
| Templates.VerifyAll | src/interfaces/config/email.go:111-124 | the pass over all templates keeps a value for every kind; what it does to each kind and when it fails are the three lemmas below |
| Templates.VerifyAllUnlisted | src/interfaces/config/email.go:102-125 | a kind named by no template is left as it was by the pass |
| Templates.VerifyAllAt | src/interfaces/config/email.go:102-125 | with distinct kinds, each kind ends exactly as its own template's verification leaves it, whatever the order |
| Templates.VerifyAllSucceeds | src/interfaces/config/email.go:111-124 | the pass succeeds iff no single template fails |
| Templates.DefaultTemplate | src/interfaces/config/email.go:78-100 | every default template is enabled and bound to its kind |
| Templates.DefaultTemplates | src/interfaces/config/email.go:103-107 | the template fields in list order, field i serving the i-th kind of `Emails` |
| Templates.DefaultTemplatesBindEveryKind | src/interfaces/config/email.go:78-107 | the eighteen default templates name eighteen distinct kinds, covering all of them |
| Templates.WithLocalPath | src/interfaces/config/email.go:108-110 | every template gets the directory and nothing else changes |
| Templates.DefaultTemplatesLocalized | src/interfaces/config/email.go:103-110 | after the directory is copied in, the templates still name distinct kinds, each at its kind's position |
| Templates.DefaultStartupData | src/interfaces/config/email.go:102-125 | with the defaults, every kind ends as its own default template's verification leaves it |
| Templates.DefaultStartupSucceeds | src/interfaces/config/email.go:102-125 | with the defaults, start-up succeeds iff every kind's template loads |
| Templates.Registry.constructor | src/interfaces/config/email.go:222-239 | the shared per-kind data starts as declared by the enum values |
| Templates.TemplateConfig.InitDefaults | src/interfaces/config/email.go:78-100 | every field set to its default template |
| Templates.TemplateConfig.Verify | src/interfaces/config/email.go:102-125 | the directory is copied into every template; the shared data and the error are those of verifying the templates in order (first error reported) |
| EmailSettings.SmtpCheck | src/interfaces/config/email.go:170-184 | each SMTP error is reported exactly when its check is the first to fail; none iff host, port in 1..65534, username and password are all set |
| EmailSettings.PortBounds | src/interfaces/config/email.go:173-178 | port 65535 and 0 are refused; 1 and 65534 pass |
| EmailSettings.Settle | src/interfaces/config/email.go:169-208 | the dial happens iff the field checks pass; no error iff fields, dial and both durations are fine; a parsed duration is stored even when a later check fails |
| EmailSettings.DefaultsRejected | src/interfaces/config/email.go:158-184 | the defaults stop at the empty username, before dialling |
| EmailSettings.EmailConfig.InitDefaults | src/interfaces/config/email.go:158-167 | host, port, empty credentials, "5m"/"1m", the template directory and the default templates |
| EmailSettings.EmailConfig.Verify | src/interfaces/config/email.go:169-210 | settings unchanged; durations stored as parsed; on success of the checks the directory is handed down and the template pass decides the result |
| Codes.Get | src/email/code.go:42 | an entry is seen exactly while the instant is before its expiry |
| Codes.Generate | src/email/code.go:40-56 | in cooldown: refused, nothing written, wait = mark + interval - now; otherwise the code is live for exactly the expiry, the mark for exactly the interval, other addresses untouched |
| Codes.Verify | src/email/code.go:58-72 | no live code: expired; live but different code or id: invalid, nothing changes; match: success and the code is consumed; marks never touched |
| Codes.Remove | src/grpc/server.go:328 | only the address's code goes; other codes and all marks stay |
| Codes.CooldownWaitBounds | src/email/code.go:42-43 | a refused generation reports a wait in (0, interval] |
| Codes.CaseInsensitiveKeys | src/email/code.go:41-59 | addresses equal up to case behave identically for generate, verify and remove |
| Codes.SecondRequestInCooldown | src/email/code.go:42-49 | a repeat request inside the window is refused with the rest of the window as the wait |
| Codes.IssuedCodeVerifiesOnce | src/email/code.go:45-71 | an issued code verifies once before expiry; the repeat reports expired |
| Codes.NoReplay | src/email/code.go:70 | a consumed code can never be verified again |
| Codes.WrongAttemptKeepsEntry | src/email/code.go:66-69 | a wrong code or id is invalid and leaves the entry for the right pair |
| Codes.IssuedCodeExpires | src/email/code.go:47-65 | after the expiry the code reports expired |
| Codes.NewerCodeSupersedes | src/email/code.go:45-69 | after the cooldown, a new code replaces the old one, which becomes invalid |
| Codes.CooldownSurvivesVerify | src/email/code.go:42-72 | verifying does not lift the cooldown |
| Codes.StepsKeepConsistency | src/email/code.go:40-72 | every step keeps each mark issued no later than now and living exactly the interval |
| Codes.CodeManager.constructor | src/email/code.go:26-38 | empty stores and the configured durations |
| Codes.CodeManager.Advance | src/email/code.go:43-46 | time passes; the stores are unchanged |
| Codes.CodeManager.GenerateEmailCode | src/email/code.go:40-56 | the stores become those of `Generate`; the payload carries the `%04d` id, the code, the expiry instant and the lifetime exactly when issued |
| Codes.CodeManager.VerifyEmailCode | src/email/code.go:58-72 | the stores and the error are those of `Verify` |
| Codes.CodeManager.RemoveEmailCode | src/grpc/server.go:323-330 | the stores become those of `Remove` |
| Sender.GenerateEmail | src/email/sender.go:64-85 | a render failure is passed on; otherwise From = account, To = recipient, Subject = kind's subject, HTML body = rendered text |
| Sender.SendEmail | src/email/sender.go:35-62 | disabled, then data-invalid refusals before any rendering; rendering iff enabled, registered and valid; the sent message is the generated one for the lower-cased recipient; success iff delivered |
| Sender.NeverUnregistered | src/email/sender.go:39-42 | every kind is registered, so "not registered" never occurs |
| Sender.DisabledRefusedRegardless | src/email/sender.go:36-38 | a disabled kind is refused whatever the payload, and nothing is sent |
| Sender.RecipientCaseIrrelevant | src/email/sender.go:47 | recipients equal up to case give the same outcome |
| Sender.OwnPayloadRendered | src/email/sender.go:36-49 | an enabled kind with its own struct is always rendered; only rendering or delivery can fail |
| GrpcServer.ExtractAndValidateFields | src/grpc/server.go:60-71 | true iff no string field is empty |
| GrpcServer.Fields | src/grpc/server.go:60-71 | the reflective check of a send request passes iff every string field is non-empty; a passing request has a recipient and a control id |
| GrpcServer.HandlerKind | src/grpc/server.go:81-297 | no send handler sends the verification-code kind |
| GrpcServer.ToPayload | src/grpc/server.go:81-297 | each handler builds the payload struct of the kind it passes to the sender |
| GrpcServer.HandlerPairing | src/grpc/server.go:81-297 | every send handler builds the payload its kind's validator accepts, and none targets the verification-code kind |
| GrpcServer.HandlersNeverDataInvalid | src/grpc/server.go:81-297 | the send handlers can never see "data invalid" or "not registered" |
| GrpcServer.HandleSendError | src/grpc/server.go:44-58 | no status iff no error; Unavailable iff not enabled; InvalidArgument iff not registered; Internal for every other error |
| GrpcServer.SendAnswer | src/grpc/server.go:73-79 | success iff the sender returned no error; the status is the mapped error |
| GrpcServer.SendHandler | src/grpc/server.go:81-297 | an empty string field gives "missing required argument" without calling the sender; otherwise the sender is called with the handler's kind, that kind's data and payload, and its outcome is mapped |
| GrpcServer.VerifyAnswer | src/grpc/server.go:299-321 | success/0 iff no error; expired/1 and invalid/2 without status; any other error gives 3 with an Internal status |
| GrpcServer.VerifyNeverUnknown | src/grpc/server.go:306-321 | the manager's verification never produces code 3 or a status |
| GrpcServer.VerifyHandler | src/grpc/server.go:306-321 | empty email or code: missing argument, stores unchanged; otherwise the stores and the answer follow `Verify` |
| GrpcServer.RemoveHandler | src/grpc/server.go:323-330 | empty email: missing argument; otherwise success, and the stores become those of `Remove` |
| HttpService.HttpCode | src/server/service/email.go:41-55 | cooldown is 400 and send failure is 500 |
| HttpService.Respond | src/server/service/email.go:37-58 | cooldown: interval status with the wait; other generation error: server error; send failure: send-failed; data true iff both steps succeed |
| HttpService.SendEmailCode | src/server/service/email.go:37-58 | the stores follow `Generate`; on failure the sender is not called; on success the sender gets the verification-code kind and exactly the generated payload |
| HttpService.RetryAfterFailureCoolsDown | src/server/service/email.go:53-56 | a send failure does not undo the code or mark, so a retry within the interval gets the cooldown status with the remaining wait |
| Dto.Step | src/interfaces/server/dto/email.go:9 | one character of the pattern: the start is never re-entered, failure is final, and only `[\w-]`, '@' and '.' keep the match alive |
| Dto.Run | src/interfaces/server/dto/email.go:9 | a failed match stays failed; a live match has read only `[\w-]`, '@' and '.' characters |
| Dto.MatchesAddressPattern | src/interfaces/server/dto/email.go:9 | the anchored pattern accepts a string iff it has the address shape (`[\w-]` local part, '@', dotted `[\w-]` labels) |
| Dto.ValidForm | src/interfaces/server/dto/email.go:8-9 | a form is valid iff its control id is non-negative and its address has the accepted shape |
| Dto.IndexOf | src/interfaces/server/dto/email.go:9 | the first occurrence of a character |
| Dto.TailCons | src/interfaces/server/dto/email.go:9 | the label-tail shape, one character at a time |
| Dto.LabelRun | src/interfaces/server/dto/email.go:9 | inside a later label, the pattern accepts iff the rest is labels joined by single dots |
| Dto.FirstLabelRun | src/interfaces/server/dto/email.go:9 | inside the first domain label, the pattern accepts iff the rest is such a tail holding a dot |
| Dto.AfterAtRun | src/interfaces/server/dto/email.go:9 | after the '@', the pattern accepts iff a domain follows |
| Dto.LocalRun | src/interfaces/server/dto/email.go:9 | inside the local part, the pattern accepts iff atoms run up to the first '@' and a domain follows |
| Dto.IndexOfUnique | src/interfaces/server/dto/email.go:9 | a position holding the first occurrence is the first occurrence |
| Dto.AllAtomsCons | src/interfaces/server/dto/email.go:9 | a local part of `[\w-]`, one character at a time |
| Dto.PatternIsAddressShape | src/interfaces/server/dto/email.go:9 | the regular expression accepts exactly the non-empty `[\w-]` local part, '@', and a domain of two or more `[\w-]` labels |
| Dto.AcceptedLocalPart | src/interfaces/server/dto/email.go:9 | an accepted address has exactly one '@', a non-empty local part, and no '.' or '+' before the '@' |
| Dto.AcceptedDomain | src/interfaces/server/dto/email.go:9 | an accepted domain has a dot, no leading or trailing dot and no two dots in a row |
| Dto.RunAppend | src/interfaces/server/dto/email.go:9 | matching a concatenation is matching its parts in sequence |
| Dto.RunAtoms | src/interfaces/server/dto/email.go:9 | a run of `[\w-]` keeps the matcher inside the local part or label it is in |
| Dto.DottedLocalPartRejected | src/interfaces/server/dto/email.go:9 | any address whose local part is `[\w-]` characters followed by a '.' is refused, whatever follows |
| Dto.DottedExampleRejected | src/interfaces/server/dto/email.go:9 | "a.b@x.com" is refused |
| Dto.PlusTagRejected | src/interfaces/server/dto/email.go:9 | "ab+c@x.com" is refused |
| Dto.SingleLabelDomainRejected | src/interfaces/server/dto/email.go:9 | "abc@xcom" is refused |
| Dto.PlainAddressAccepted | src/interfaces/server/dto/email.go:9 | "a_1@b-2.cn" is accepted |
| Dto.NegativeCidRejected | src/interfaces/server/dto/email.go:8 | a negative control id is refused whatever the address |

## Left out

- Unicode lower-casing: `strings.ToLower` is modelled on ASCII letters only. Other characters are kept as they are.
- Time formatting: the RFC 3339 expiry instant and the `%.0f` minutes and seconds are abstract functions (`formatInstant`, `formatMinutes`), and the cooldown message text is not modelled. Durations are integer seconds.
- The random six-character code is a parameter of generation.
- Time: the source reads the wall clock three times during one generation. The model reads its clock once per call.
- The expiring cache: it is modelled as a map with an expiry instant per entry. An entry is seen exactly before that instant. Eviction and memory are not modelled.
- Concurrency: two concurrent generations for one address can both pass the cooldown check (they race between the check and the mark). The model runs each call atomically, so it does not capture that race.
- Concurrent template verification: the errgroup runs the template checks concurrently and reports one of the errors. The model verifies them in list order and reports the first error. It proves that success does not depend on the order (`Templates.VerifyAllSucceeds`).
- Template loading: the URL join, the local read or download, and the template parse are one abstract loader that returns the template or an error.
- Rendering and delivery: `template.Execute` and `gomail.Send` are function parameters. The rendered HTML is a string, and the SMTP dial at start-up is an abstract outcome.
- `time.ParseDuration` is an abstract parser.
- Go error wrapping and message texts of the configuration errors: these are constructors of `EmailSettings.ConfigError`.
- Typed nil references: the validators' type assertions would accept a nil reference of the right struct type. The model has no nil payloads.
- Protobuf message definitions are not part of this model. Each message is a datatype with the fields the handler reads. Before them are three non-string fields standing for the message's internal bookkeeping, which the reflective check skips.
- `GrpcServer.VerifyHandler`: the handler at src/grpc/server.go:310 calls the manager's verification with two arguments, while the manager takes three. The model passes the message's control id. The manager interface (src/interfaces/email/code.go:23-26) also has no remove operation. `Codes.CodeManager.RemoveEmailCode` supplies one, which drops the code entry only.
- The `required` tag on the integer control id: its meaning belongs to the HTTP validation library, which is not part of this model. The model keeps only `min=0`. The email's `required` is implied by the regular expression.
- HTTP status codes of the library's generic server error and success status: they are defined outside this repository, so `HttpService.HttpCode` leaves them unset.
- The HTTP controller's binding and validation wiring, the RPC and HTTP server registration, logging, `main.go` and the configuration getters: these are wiring with no behaviour of their own.
- Duplicated default assignments: `TemplateConfig.InitDefaults` assigns three fields twice with the same values. The model writes each field once.
