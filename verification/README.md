# Sufia characterization, curation-concerns permissions and version import — a Dafny model

This project models three small pieces of the Sufia / CurationConcerns
repository and proves what they promise.

- **Characterization follow-up** (`characterize_job.dfy`, module
  `CharacterizeJobs`). A `CharacterizeJob` always names the
  `zzz_characterize` queue. Running it characterizes its generic file, then
  applies a fixed rule to the four type predicates `pdf?`, `image?`, `video?`
  and `audio?`, modelled as four independent booleans. A thumbnail is made
  inline for a pdf, an image or a video. A video gets one `TranscodeVideoJob`
  pushed on the shared queue. Otherwise, audio gets one `TranscodeAudioJob`.
  The file, the queue and the job are classes. The queue is an append-only
  sequence. The thumbnail is a counter on the file. A ghost trace on the job
  records the effects in the order they happen.
- **Curation-concerns permissions** (`ability.dfy`, module
  `CurationConcernsAbility`). An `Ability` accumulates `can` grants and the
  alias table of `alias_action`. `curation_concerns_permissions` and
  `everyone_can_create_curation_concerns` append grants that depend only on
  whether the current user is a new record and whether the user is in the
  `admin` group. Including the module appends `curation_concerns_permissions`
  to the host's `ability_logic`. A decision is the pure predicate
  `Granted(rules, aliases, action, subject)`: some grant covers the action,
  directly or through an alias, and the subject, by class or because the
  grant is on `:all`.
- **Version-history import** (`version_builder.dfy`, module
  `VersionImport`). `VersionBuilder.build` fails when the Sufia 6 user name
  or password is not configured. Otherwise it fetches each descriptor's URI
  with basic authentication and stores one version per descriptor with that
  descriptor's label and `created` time. The file ends with the last
  descriptor's bytes as its content and that descriptor's `created` as its
  `date_created`. The builder is a class with a loop over the descriptors. It
  is proved against the pure `Build`/`Replay` functions, and the lemmas about
  those state what the import test checks.

Remote fetching is a function parameter from URI and credentials to bytes.
The characterization tool's verdict is a parameter of `Run`. No clock is
involved: every stored date comes from a descriptor.

## Model

| member | source | states |
|---|---|---|
| `CharacterizeJobs.CharacterizeJob.QueueName` | sufia-models/lib/sufia/models/jobs/characterize_job.rb:3-6 | the queue name is `zzz_characterize` |
| `CharacterizeJobs.QueueNameIgnoresFile` | sufia-models/lib/sufia/models/jobs/characterize_job.rb:3-6 | any two characterization jobs, whatever their files, name the same queue, `zzz_characterize` |
| `CharacterizeJobs.CharacterizeJob.Run` | sufia-models/lib/sufia/models/jobs/characterize_job.rb:8-11 | the file ends characterized with the detected types; the effects are characterization followed by the follow-up rule applied to those detected types; thumbnails and queue change exactly as that rule says |
| `CharacterizeJobs.CharacterizeComesFirst` | sufia-models/lib/sufia/models/jobs/characterize_job.rb:8-11 | the first effect of `run` is characterizing the job's file, and no later effect characterizes again, so every follow-up decision comes after it |
| `CharacterizeJobs.CharacterizeJob.AfterCharacterize` | sufia-models/lib/sufia/models/jobs/characterize_job.rb:13-22 | the file's types are unchanged; the thumbnail count grows by the rule's thumbnail count; the queue grows by exactly the rule's pushed jobs; the trace grows by the rule's effects in order |
| `CharacterizeJobs.ThumbnailIffVisual` | sufia-models/lib/sufia/models/jobs/characterize_job.rb:14-16 | one thumbnail is made if `pdf? or image? or video?`, none otherwise |
| `CharacterizeJobs.VideoTakesPrecedence` | sufia-models/lib/sufia/models/jobs/characterize_job.rb:17-18 | for a video, exactly one `TranscodeVideoJob` for the same file is pushed and no `TranscodeAudioJob`, even if `audio?` holds too |
| `CharacterizeJobs.AudioWithoutVideo` | sufia-models/lib/sufia/models/jobs/characterize_job.rb:19-20 | for audio that is not video, exactly one `TranscodeAudioJob` for the same file is pushed |
| `CharacterizeJobs.NoMediaNoPush` | sufia-models/lib/sufia/models/jobs/characterize_job.rb:17-21 | when neither `video?` nor `audio?` holds, nothing is pushed, so the queue is unchanged |
| `CharacterizeJobs.AtMostOnePushForSameFile` | sufia-models/lib/sufia/models/jobs/characterize_job.rb:17-21 | at most one job is pushed, and every pushed job carries the id of the file the job targets |
| `CharacterizeJobs.ThumbnailBeforePush` | sufia-models/lib/sufia/models/jobs/characterize_job.rb:14-21 | in the follow-up effects, every thumbnail step comes before every push |
| `CharacterizeJobs.GenericFile.Characterize` | sufia-models/lib/sufia/models/jobs/characterize_job.rb:9 | the file is marked characterized and answers the type predicates with what was detected; its thumbnails are untouched |
| `CharacterizeJobs.GenericFile.CreateThumbnail` | sufia-models/lib/sufia/models/jobs/characterize_job.rb:15 | exactly one more thumbnail; the characterization is untouched |
| `CharacterizeJobs.JobQueue.Push` | sufia-models/lib/sufia/models/jobs/characterize_job.rb:18 | the job is appended at the end of the queue and nothing else changes |
| `CharacterizeJobs.Pushed` | sufia-models/lib/sufia/models/jobs/characterize_job.rb:18-20 | a job is among the pushed jobs exactly when a push of it is among the effects |
| `CurationConcernsAbility.AbilityClass.IncludeCurationConcerns` | curation_concerns-models/app/models/concerns/curation_concerns/ability.rb:4-6 | `ability_logic` becomes its old value with `curation_concerns_permissions` appended |
| `CurationConcernsAbility.WithCurationConcerns` | curation_concerns-models/app/models/concerns/curation_concerns/ability.rb:5 | the earlier entries are kept as a prefix, in order, and `curation_concerns_permissions` is added once at the end |
| `CurationConcernsAbility.Ability.CurationConcernsPermissions` | curation_concerns-models/app/models/concerns/curation_concerns/ability.rb:8-21 | the grants become the old grants followed by this step's grants; `versions` is added as an alias of `update`; afterwards the ability allows a persisted user to create `ClassifyConcern`, an admin every admin action on every subject, and everyone `collect` on every subject |
| `CurationConcernsAbility.Ability.Can` | curation_concerns-models/app/models/concerns/curation_concerns/ability.rb:10 | one grant is appended; the aliases are untouched |
| `CurationConcernsAbility.Ability.AliasAction` | curation_concerns-models/app/models/concerns/curation_concerns/ability.rb:14 | the alias is added under its target; the grants are untouched |
| `CurationConcernsAbility.AddAlias` | curation_concerns-models/app/models/concerns/curation_concerns/ability.rb:14 | after `alias_action versions, to: update`, `versions` is among `update`'s aliases, earlier aliases are kept, and no other alias appears |
| `CurationConcernsAbility.CurationConcernsAliases` | curation_concerns-models/app/models/concerns/curation_concerns/ability.rb:14 | on a fresh ability the alias table is exactly `update` → {`versions`}; it has no alias chains and `update` is nobody's alias |
| `CurationConcernsAbility.GrantedAppend` | curation_concerns-models/app/models/concerns/curation_concerns/ability.rb:8-29 | grants are additive: a list of grants followed by more grants allows exactly what either part allows |
| `CurationConcernsAbility.PersistedUserCreatesClassifyConcern` | curation_concerns-models/app/models/concerns/curation_concerns/ability.rb:9-11 | a persisted user may create a `ClassifyConcern`, whatever grants came before |
| `CurationConcernsAbility.NewRecordGetsNoClassifyConcernRule` | curation_concerns-models/app/models/concerns/curation_concerns/ability.rb:9-11 | for a new-record user, no grant this step adds names `ClassifyConcern` |
| `CurationConcernsAbility.VersionsFollowUpdate` | curation_concerns-models/app/models/concerns/curation_concerns/ability.rb:13-14 | once `versions` is an alias of `update`, and `update` is no action's alias, every subject on which `update` is granted also has `versions` granted |
| `CurationConcernsAbility.CurationConcernsAliasesVersions` | curation_concerns-models/app/models/concerns/curation_concerns/ability.rb:14 | the step leaves `versions` among `update`'s aliases, and it does not make `update` an alias, so `VersionsFollowUpdate` applies afterwards |
| `CurationConcernsAbility.AdminMayDoEverything` | curation_concerns-models/app/models/concerns/curation_concerns/ability.rb:16-18 | a user in group `admin` may create, discover, show, read, edit, update and destroy every subject |
| `CurationConcernsAbility.EveryoneMayCollect` | curation_concerns-models/app/models/concerns/curation_concerns/ability.rb:20 | every user, new record or not, admin or not, may collect every subject |
| `CurationConcernsAbility.NonAdminGrantsOnly` | curation_concerns-models/app/models/concerns/curation_concerns/ability.rb:8-21 | for a non-admin on a fresh ability, the step grants an action on a subject if and only if the action is `collect`, or the user is persisted and the request is `create` on `ClassifyConcern` |
| `CurationConcernsAbility.Ability.EveryoneCanCreateCurationConcerns` | curation_concerns-models/app/models/concerns/curation_concerns/ability.rb:25-30 | the grants become the old grants followed by this step's grants; the aliases are untouched; afterwards the ability allows a persisted user to create `GenericFile`, each configured curation-concern class and `Collection` |
| `CurationConcernsAbility.EveryoneCanCreateNothingForNewRecord` | curation_concerns-models/app/models/concerns/curation_concerns/ability.rb:26 | for a new-record user the step changes no decision at all |
| `CurationConcernsAbility.EveryoneCanCreateForPersisted` | curation_concerns-models/app/models/concerns/curation_concerns/ability.rb:27-29 | a persisted user may create `GenericFile`, each configured curation-concern class and `Collection` |
| `VersionImport.ConfiguredCredentials` | spec/lib/sufia/import/version_builder_spec.rb:36-44 | credentials exist if and only if both the user name and the password are configured, and then they are that pair |
| `VersionImport.VersionBuilder.BuildVersions` | spec/lib/sufia/import/version_builder_spec.rb:36-62 | fails exactly when the credentials are not configured, and then it changes neither the file nor the fetch log; otherwise the file ends as `Build` says and one authenticated fetch per descriptor is logged, in order |
| `VersionImport.BuildFailsWithoutCredentials` | spec/lib/sufia/import/version_builder_spec.rb:36-39 | `build` fails exactly when the user name or the password is not configured |
| `VersionImport.Requests` | spec/lib/sufia/import/version_builder_spec.rb:43-46 | one fetch per descriptor, in order, each of that descriptor's URI with basic authentication `[user, password]` |
| `VersionImport.StoredVersions` | spec/lib/sufia/import/version_builder_spec.rb:56-61 | one version per descriptor, in order, each with that descriptor's label, its `created` time and the bytes fetched from its URI |
| `VersionImport.ReplayVersions` | spec/lib/sufia/import/version_builder_spec.rb:57-58 | the import keeps the versions already there and appends exactly the descriptors' versions, in order |
| `VersionImport.ReplayEndsOnLast` | spec/lib/sufia/import/version_builder_spec.rb:59-60 | after importing a non-empty list, the content is the bytes fetched for the last descriptor, and `date_created` is that descriptor's `created`, not the time of the import |
| `VersionImport.BuildCreatesVersions` | spec/lib/sufia/import/version_builder_spec.rb:56-62 | on a file without versions and with credentials: the version count is the descriptor count; labels and version `date_created` values equal the descriptors' as multisets; content and `date_created` are the last descriptor's |
| `VersionImport.OriginalFile.AddVersion` | spec/lib/sufia/import/version_builder_spec.rb:57-60 | one version is appended with the given label, date and bytes; these become the current content and `date_created` |

## Left out

- The internals of `characterize`, `create_thumbnail` and the transcoders: they call external tools. Characterization's verdict is a parameter, and a thumbnail is a counter on the file.
- Failure of `characterize`, `create_thumbnail` or the queue push: in the source a raise from any of them ends the job, and the remaining effects are not performed. A raise from `characterize` skips `after_characterize`; a raise from `create_thumbnail` skips the transcode push. The model's `Run` and `AfterCharacterize` always perform every effect.
- `ActiveFedoraPidBasedJob` loading the file from its id: `Run` takes the file and requires that its id is the job's id.
- The worker behaviour of the shared queue: lanes, priority and dequeueing. The queue is an append-only sequence.
- The queue names of `TranscodeVideoJob` and `TranscodeAudioJob`: their classes are not part of this model.
- CanCan itself: only the union of `can` grants, `:all` and one level of alias expansion are modelled. CanCan's default aliases (`read`, `create`, `update`) are not, so a fresh `Ability` starts with no aliases. There are no `cannot` rules, conditions or blocks, and requests are on a class, not on an instance.
- `VersionsFollowUpdate`: needs `update` not to be an alias of another action. CanCan expands aliases recursively; the model expands one level. The two agree when there are no alias chains, that is when no alias is itself a key of the alias table (`NoAliasChains`). The only alias in this rule set is `versions` under `update`, and `CurationConcernsAliases` proves that this table has no chains.
- How the host ability runs the steps of `ability_logic`, and where `current_user` and `user_groups` come from (authentication).
- The implementation of `Sufia::Import::VersionBuilder` is not part of this model. The model is built from its test, and it commits to more than that test checks. Each of the following is a modelling choice, not something the test asserts:
  - Versions are stored in descriptor order. The test compares labels and dates only as multisets.
  - Exactly one fetch is made per descriptor, in descriptor order. The test only limits which arguments a fetch may get; it checks neither their number nor their order.
  - Versions already on the file are kept, and the new ones are appended after them. The test starts from a new file set.
  - Each stored version's content is the bytes fetched for its descriptor. The test checks only the current content.
  - A user name or password that is present counts as configured, even when it is the empty string. The test only checks the case where neither is configured.
- Remote fetching: HTTP `open`, Tempfile handling, timeouts and fetch failures. `fetch` is a total function from URI and credentials to bytes, so a failing fetch is not modelled.
- The Fedora/PCDM versioning API. A version is a value holding a label, a date and bytes. The file set's original file is a class holding its versions, content and `date_created`.
- The characterization that the import triggers at the end (`CharacterizeJob.perform_now`, which the test stubs out).
- Importing an empty descriptor list: the test does not cover it. The model then stores nothing and leaves the content and `date_created` as they were.
- The generic-files controller and the batch-edit view (HTTP actions, rendering, persistence and checksum audits): they are not part of this model.
