# CodePrimer core, modelled in Dafny

CodePrimer is a PHP code generator. A user describes a business bundle: its business models (entities) with typed fields, the relationships between them, unique constraints and indexes, data sets of constant rows, business processes with the data bundles their events carry, and state machines. CodePrimer then renders artifacts from templates, such as PHP or Java classes, Doctrine ORM entities, MySQL scripts and Markdown documentation. This project models the sequential, I/O-free core of that system and proves what it promises.

- **Metamodel**: `Model`, `Bundles`, `LegacyBundles`, `Processes`, `Datasets`, `DataModel`, `Events`, `Derived`, `Sets` and `StateMachines`.
  - The mutable PHP objects become Dafny classes whose methods update their fields.
  - PHP keyed arrays become insertion-ordered key/value sequences (`OrderedMap`). Assigning to an existing key replaces its value in place; a new key goes last.
  - Exceptions become a `Result` carrying an error kind (logic, invalid argument, runtime, fatal) and its message.
  - Every guard fails before it mutates anything, and that is stated in the contracts.
- **Decision helpers**:
  - `FieldHelper`: type classification.
  - `Relationships`: relationship inference by `BusinessBundleHelper` and `PackageHelper`. For business models the linking is modelled both as written, where it stops with a TypeError, and as corrected (see Findings).
  - `ModelHelpers`: `BusinessModelHelper` and `EntityHelper`.
  - `DataBundleHelpers`: which fields go into which bundle.
  - `DataNames`, `EventNaming` and `EventHelpers`: resolving data-name conflicts.
  - `DatabaseAdapter`, `RelationalAdapter` and `RelationalFields`: names, foreign keys, and the generation of identifiers and foreign keys.
- **String rules of the Twig extensions**: `LanguageTwig`, `PhpTwig`, `JavaTwig`, `SqlTwig`, `MySqlTwig`, `DoctrineTwig` and `MarkdownTwig`.
  - They work on value views of the model (`TwigValues`) taken at render time.
  - The Doctrine Inflector (`camelize`, `classify`, `tableize`, `pluralize`, `singularize`) is an `Inflection.Inflector` value of uninterpreted functions passed in as a parameter. Every property about it holds for any inflector.
- **Artifact plumbing**:
  - `Artifacts`: `Artifact`, `ArtifactHelper` and `ArtifactBuilderFactory`.
  - `Templates`: the four-level `TemplateRegistry` and `TemplateRenderer::getTemplateFilename`.
  - `ProjectConfig`: the artifact list's encoding in `ProjectConfiguration` and its round trip.
- **PHP primitives** the rules rely on: `PhpStrings`, `PhpValues` and `Wrappers`.
  - The primitives include `strtolower`, `str_replace`, `rtrim`, `implode`, `filter_var` on booleans, `intval`, `is_numeric` and the conversion of array keys.
  - They follow PHP 7: `is_numeric` refuses trailing whitespace, a canonical decimal string key becomes an integer key, and a string offset accepts any integer numeric string, leading zeros included.

Several members that callers use are not declared in the source tree, which is midway through renaming Entity to BusinessModel and Package to BusinessBundle. Most are modelled as an abstract field, an optional field of a value or a function parameter. Two adapter methods are given the body of their entity counterpart instead. Each is listed below with its treatment.

## Model

| member | source | states |
|---|---|---|
| Model.Field.constructor | src/Model/Field.php:50-58 | a new field has the given name, type, description, mandatory flag, default and example; searchable, managed, list and generated start false and the relation starts null |
| Model.Field.SetName | src/Model/Field.php:73-78 | returns the same field; only the name changes |
| Model.Field.SetType | src/Model/Field.php:92-97 | returns the same field; only the type changes |
| Model.Field.SetDescription | src/Model/Field.php:111-116 | returns the same field; only the description changes |
| Model.Field.SetDefault | src/Model/Field.php:130-135 | returns the same field; only the default changes |
| Model.Field.SetExample | src/Model/Field.php:149-154 | returns the same field; only the example changes |
| Model.Field.SetMandatory | src/Model/Field.php:168-173 | returns the same field; only the mandatory flag changes |
| Model.Field.SetSearchable | src/Model/Field.php:187-192 | returns the same field; only the searchable flag changes |
| Model.Field.SetManaged | src/Model/Field.php:206-211 | returns the same field; only the managed flag changes |
| Model.Field.SetList | src/Model/Field.php:225-230 | returns the same field; only the list flag changes |
| Model.Field.SetGenerated | src/Model/Field.php:244-248 | returns the same field; only the generated flag changes |
| Model.Field.SetIdentifier | src/Model/BusinessModel.php:142-154 | the identifier flag the model reads and clears; returns the same field and changes nothing else |
| Model.Field.SetRelation | src/Model/Field.php:262-266 | overwrites the relation and nothing else; the side it pointed at is not touched |
| Model.RelationshipSide.constructor | src/Model/RelationshipSide.php:29-33 | the side, over an entity or (as corrected, see Findings) a business model, keeps its owner and field, has no side name and no relationship yet, and the field's relation points back at it |
| Model.RelationshipSide.SetField | src/Model/RelationshipSide.php:89-103 | the new field points back at the side; a previous, different field has its relation cleared; the side name and relationship are kept |
| Model.RelationshipSide.SetRelationship | src/Model/RelationshipSide.php:118-123 | records the relationship and the side name; the field is kept |
| Model.Relationship.constructor | src/Model/Relationship.php:28-37 | both sides point at the relationship, the right side is stamped RIGHT and, for two distinct sides, the left LEFT and each is the other's remote side; one side given twice ends up right and is its own remote side |
| Model.FlaggedExactly | src/Model/BusinessModel.php:192-239 | a field is in a flag filter's result exactly when it is one of the fields and carries the flag; the result is never longer |
| Model.CollectFlagged | src/Model/BusinessModel.php:192-203 | the filter loop returns exactly the flagged fields, in order |
| Model.RelationsOfExactly | src/Model/BusinessModel.php:246-258 | a side is listed exactly when some field's relation is that side |
| Model.CollectRelations | src/Model/BusinessModel.php:246-258 | the loop lists the non-null relations in field order |
| Model.FirstIdentifierIsFirst | src/Model/Entity.php:238-249 | no identifier exactly when no field is a managed, mandatory identifier; otherwise the identifier is the first such field |
| Model.FindIdentifier | src/Model/Entity.php:238-249 | the scan returns the first managed, mandatory, identifier-typed field, or null |
| Model.BusinessModel.constructor | src/Model/BusinessModel.php:48-52 | a new model has the given name and description, is not audited, has no state machine, no constraints, no fields and no identifier |
| Model.BusinessModel.SetName | src/Model/BusinessModel.php:62-67 | returns the same model; only the name changes |
| Model.BusinessModel.SetDescription | src/Model/BusinessModel.php:77-82 | returns the same model; only the description changes |
| Model.BusinessModel.SetAudited | src/Model/BusinessModel.php:89-94 | returns the same model; only the audited flag changes |
| Model.BusinessModel.SetStateMachine | src/Model/BusinessModel.php:106-111 | returns the same model; only the state machine changes |
| Model.BusinessModel.GetField | src/Model/BusinessModel.php:178-185 | null exactly when no field is stored under the name; otherwise the field stored under it |
| Model.BusinessModel.AddField | src/Model/BusinessModel.php:140-173 | fails exactly when an identifier field's type is neither id nor uuid (InvalidArgumentException with the type in the message, nothing stored) or when no field sits under the current identifier's name; otherwise stores the field by name, promotes an identifier (forcing its flags) and demotes the previous one with its saved flags |
| Model.BusinessModel.AddIdentifier | src/Model/BusinessModel.php:142-170 | the identifier branch of addField: the same failure conditions and results for a field flagged as identifier |
| Model.BusinessModel.AcceptIdentifier | src/Model/BusinessModel.php:148-170 | once the type is accepted: the field is stored and becomes the identifier, no key is lost and the previous identifier is demoted |
| Model.BusinessModel.ReplaceIdentifier | src/Model/BusinessModel.php:148-170 | the field under the old identifier's name is demoted and stored back, then the new one is stored and promoted |
| Model.BusinessModel.PromoteAndStore | src/Model/BusinessModel.php:160-170 | the field's flags are forced on, their old values saved, it becomes the identifier and is stored under its name |
| Model.BusinessModel.Store | src/Model/BusinessModel.php:170 | the field is stored under its name, replacing an equal name in place; nothing else changes |
| Model.BusinessModel.SetFields | src/Model/BusinessModel.php:126-134 | the fields are cleared and the given ones added in order; without identifier fields the result is the keyed store of the list and the identifier is kept |
| Model.BusinessModel.AddListed | src/Model/BusinessModel.php:130-133 | one round of the setFields loop: the i-th field is added and every key is kept |
| Model.BusinessModel.Demote | src/Model/BusinessModel.php:148-157 | the demoted field's identifier flag is cleared and its managed, mandatory and generated flags return to the saved values; the model has no identifier |
| Model.BusinessModel.Promote | src/Model/BusinessModel.php:159-167 | the field's flags are forced on, the old ones saved, and the field becomes the identifier |
| Model.BusinessModel.ForceFlags | src/Model/BusinessModel.php:162-164 | mandatory, managed and generated are set and nothing else changes |
| Model.BusinessModel.GetMandatoryFields | src/Model/BusinessModel.php:192-203 | exactly the mandatory fields, in insertion order |
| Model.BusinessModel.GetSearchableFields | src/Model/BusinessModel.php:210-221 | exactly the searchable fields, in insertion order |
| Model.BusinessModel.GetManagedFields | src/Model/BusinessModel.php:228-239 | exactly the managed fields, in insertion order |
| Model.BusinessModel.GetRelations | src/Model/BusinessModel.php:246-258 | the non-null relations of the fields, in order |
| Model.BusinessModel.AddUniqueConstraint | src/Model/BusinessModel.php:292-297 | the constraint is appended and nothing else changes |
| Model.BusinessModel.SetUniqueConstraints | src/Model/BusinessModel.php:278-287 | the list becomes the given constraints, duplicates kept |
| Model.Entity.constructor | src/Model/Entity.php:39-43 | a new entity has the given name and description, is not audited and has no state machine, constraints or fields |
| Model.Entity.SetName | src/Model/Entity.php:57-62 | returns the same entity; only the name changes |
| Model.Entity.SetDescription | src/Model/Entity.php:76-81 | returns the same entity; only the description changes |
| Model.Entity.SetAudited | src/Model/Entity.php:95-99 | returns the same entity; only the audited flag changes |
| Model.Entity.SetStateMachine | src/Model/Entity.php:113-118 | returns the same entity; only the state machine changes |
| Model.Entity.AddField | src/Model/Entity.php:146-151 | the field is stored under its name, replacing an equal name in place |
| Model.Entity.SetFields | src/Model/Entity.php:132-140 | the fields become the keyed store of the list: the later of two equal names wins |
| Model.Entity.GetField | src/Model/Entity.php:157-164 | null exactly when no field is stored under the name |
| Model.Entity.GetMandatoryFields | src/Model/Entity.php:170-181 | exactly the mandatory fields, in order |
| Model.Entity.GetSearchableFields | src/Model/Entity.php:187-198 | exactly the searchable fields, in order |
| Model.Entity.GetManagedFields | src/Model/Entity.php:204-215 | exactly the managed fields, in order |
| Model.Entity.GetRelations | src/Model/Entity.php:221-233 | the non-null relations in field order |
| Model.Entity.GetIdentifier | src/Model/Entity.php:238-249 | the first field, in insertion order, that is managed, mandatory and identifier-typed, or null |
| Model.Entity.AddUniqueConstraint | src/Model/Entity.php:278-283 | the constraint is appended and the fields are kept |
| Model.Entity.SetUniqueConstraints | src/Model/Entity.php:263-272 | the list becomes the given constraints, never deduplicated |
| Model.Named | src/Model/BusinessModel.php:130-133 | each field paired with its own name, in order |
| Model.Constraint.constructor | src/Model/Constraint.php:39-51 | the constraint keeps the given name, type, fields, description and error message |
| Model.Constraint.SetName | src/Model/Constraint.php:65-69 | returns the same constraint; only the name changes |
| Model.Constraint.SetDescription | src/Model/Constraint.php:115-119 | returns the same constraint; only the description changes |
| Model.Constraint.SetErrorMessage | src/Model/Constraint.php:133-137 | returns the same constraint; only the error message changes |
| Model.Constraint.AddField | src/Model/Constraint.php:83-88 | the field is stored under the array key PHP makes of its name |
| Model.Constraint.GetField | src/Model/Constraint.php:94-101 | null exactly when nothing is stored under the array key of the name |
| Model.Index.constructor | src/Model/Database/Index.php:31-36 | the index keeps its name, fields and order (ASC by default) and has no description |
| Model.Index.SetName | src/Model/Database/Index.php:50-54 | returns the same index; only the name changes |
| Model.Index.SetDescription | src/Model/Database/Index.php:68-72 | returns the same index; only the description changes |
| Model.Index.SetFields | src/Model/Database/Index.php:86-90 | returns the same index; only the fields change |
| Model.Index.SetOrder | src/Model/Database/Index.php:104-108 | returns the same index; only the order changes |
| Sets.Element.constructor | src/Model/Element.php:15 | a new element holds no values |
| Sets.Element.SetValues | src/Model/Element.php:28-31 | the values become the given map |
| Sets.Element.AddValue | src/Model/Element.php:37-40 | the value is stored under the array key of the name; other keys keep their values |
| Sets.Element.GetValue | src/Model/Element.php:46-53 | null for a missing name; a stored string is returned; any other stored value breaks the ?string return type |
| Sets.AddedStringReadsBack | src/Model/Element.php:37-53 | a string added under a name is read back unchanged |
| Sets.Set.constructor | src/Model/Set.php:31-35 | a new set has the given name and description, no fields and no elements |
| Sets.Set.SetName | src/Model/Set.php:48-51 | only the name changes |
| Sets.Set.SetDescription | src/Model/Set.php:64-67 | only the description changes |
| Sets.Set.AddField | src/Model/Set.php:91-94 | the field is stored under its name, replacing an equal name |
| Sets.Set.SetFields | src/Model/Set.php:80-86 | the fields become the keyed store of the list; the elements are kept |
| Sets.Set.GetField | src/Model/Set.php:100-107 | null exactly when no field is stored under the name |
| Sets.Set.ListMandatoryFields | src/Model/Set.php:113-124 | exactly the mandatory fields, in order |
| Sets.Set.SetElements | src/Model/Set.php:137-140 | the elements become the given list |
| Sets.Set.AddElement | src/Model/Set.php:145-148 | the element is appended; nothing else changes |
| StateMachines.State.constructor | src/Model/State.php:38-44 | a new state keeps its name, description and initial and final flags and has no transitions |
| StateMachines.State.SetName | src/Model/State.php:57-60 | only the name changes |
| StateMachines.State.SetDescription | src/Model/State.php:73-76 | only the description changes |
| StateMachines.State.SetInitial | src/Model/State.php:89-92 | only the initial flag changes |
| StateMachines.State.SetFinal | src/Model/State.php:105-108 | only the final flag changes |
| StateMachines.State.AddTransition | src/Model/State.php:122-129 | a transition whose from-state is not named like this state is refused with InvalidArgumentException and nothing changes; otherwise it is stored under its name |
| StateMachines.Transition.constructor | src/Model/Transition.php:37-44 | the transition keeps its name, description, states and optional condition |
| StateMachines.Transition.SetName | src/Model/Transition.php:57-60 | only the name changes |
| StateMachines.Transition.SetDescription | src/Model/Transition.php:73-76 | only the description changes |
| StateMachines.Transition.SetFromState | src/Model/Transition.php:89-92 | only the from-state changes |
| StateMachines.Transition.SetToState | src/Model/Transition.php:105-108 | only the to-state changes |
| StateMachines.Transition.SetCondition | src/Model/Transition.php:121-124 | only the condition changes |
| StateMachines.StateMachine.constructor | src/Model/StateMachine.php:27-30 | a new machine has the name and no states or transitions |
| StateMachines.StateMachine.AddState | src/Model/StateMachine.php:43-46 | the state is stored under its name; transitions are kept |
| StateMachines.StateMachine.AddTransition | src/Model/StateMachine.php:51-54 | the transition is stored under its name; states are kept |
| Events.Event.constructor | src/Model/Event.php:36-42 | a new event keeps its name, code, description and entity and has no fields |
| Events.Event.SetName | src/Model/Event.php:56-61 | returns the same event; only the name changes |
| Events.Event.SetCode | src/Model/Event.php:94-99 | returns the same event; only the code changes |
| Events.Event.SetDescription | src/Model/Event.php:75-80 | returns the same event; only the description changes |
| Events.Event.SetEntity | src/Model/Event.php:113-118 | returns the same event; only the entity changes |
| Events.Event.AddField | src/Model/Event.php:146-151 | the field is stored under its name |
| Events.Event.SetFields | src/Model/Event.php:132-140 | the fields become the keyed store of the list |
| Events.Event.GetField | src/Model/Event.php:157-164 | null exactly when no field is stored under the name |
| Events.Event.ListMandatoryFields | src/Model/Event.php:170-181 | exactly the mandatory fields, in order |
| Derived.Event.constructor | src/Model/Derived/Event.php:34-40 | a new event keeps its name, code, description and model and has no fields |
| Derived.Event.NewMessage | src/Model/Derived/Message.php:10-17 | a message keeps its id, is named by its id when no name is given, and its description lands in the code |
| Derived.Event.GetId | src/Model/Derived/Message.php:22-25 | the id the message was built with |
| Derived.Event.SetName | src/Model/Derived/Event.php:50-55 | returns the same event; only the name changes |
| Derived.Event.SetCode | src/Model/Derived/Event.php:80-85 | returns the same event; only the code changes |
| Derived.Event.SetDescription | src/Model/Derived/Event.php:65-70 | returns the same event; only the description changes |
| Derived.Event.SetBusinessModel | src/Model/Derived/Event.php:98-103 | returns the same event; only the model changes |
| Derived.Event.AddField | src/Model/Derived/Event.php:131-136 | the field is stored under its name |
| Derived.Event.SetFields | src/Model/Derived/Event.php:118-126 | the fields become the keyed store of the list |
| Derived.Event.GetField | src/Model/Derived/Event.php:141-148 | null exactly when no field is stored under the name |
| Derived.Event.ListMandatoryFields | src/Model/Derived/Event.php:155-166 | exactly the mandatory fields, in order |
| FieldHelper.StringPredicateMatchesClass | src/Helper/FieldHelper.php:34-52 | isString holds exactly for the fields whose type falls in the string family of the classification |
| FieldHelper.TemporalPredicatesMatchClasses | src/Helper/FieldHelper.php:57-84 | isDate, isTime, isDateTime and isBoolean each hold exactly for their own family |
| FieldHelper.NumericPredicatesMatchClasses | src/Helper/FieldHelper.php:98-141 | isInteger, isLong, isFloat, isDouble and isPrice each hold exactly for their own family |
| FieldHelper.NativeTypesClassified | src/Helper/FieldHelper.php:242-273 | every native type belongs to one of the type families |
| FieldHelper.NativeTypesAreLowerCase | src/Helper/FieldHelper.php:242-273 | every native type name is already lower case |
| FieldHelper.CaseInsensitiveClassification | src/Helper/FieldHelper.php:26-149 | two types equal up to case get the same family, the same isAutoIncrement and the same isUuid answer |
| FieldHelper.ExactMatchPredicatesAreCaseSensitive | src/Helper/FieldHelper.php:221-273 | the type 'UUID' is a uuid and a string for the case-insensitive tests but neither native nor ASCII for the exact-match switches |
| FieldHelper.AsciiStringsAreNativeStrings | src/Helper/FieldHelper.php:221-273 | an ASCII-string type is a native type and a string |
| FieldHelper.TimestampsExclusive | src/Helper/FieldHelper.php:185-216 | no field is both the created and the updated timestamp |
| FieldHelper.CreatedTimestampExample | src/Helper/FieldHelper.php:185-197 | a managed DateTime field named CreatedAt is the created timestamp |
| FieldHelper.UnknownTypesNeverCompatible | src/Helper/FieldHelper.php:280-360 | a type outside the native list accepts no value |
| FieldHelper.StringTypesAcceptOnlyStrings | src/Helper/FieldHelper.php:290-297 | string, text, password and randomstring accept a value exactly when it is a string |
| FieldHelper.IntegerTypesAcceptance | src/Helper/FieldHelper.php:334-341 | the integer types accept every int, never null or a float, and a string exactly when intval gives a non-zero number |
| FieldHelper.UuidExamples | src/Helper/FieldHelper.php:285-289 | the case-insensitive UUID pattern accepts a version-4 UUID in either case and refuses a version-1 one |
| FieldHelper.PhoneExamples | src/Helper/FieldHelper.php:308-312 | '+15145551234' is a phone number; one without '+' or with a leading 0 is not |
| FieldHelper.PhoneUnanchoredStart | src/Helper/FieldHelper.php:15 | the phone pattern has no start anchor, so 'tel:+15145551234' is accepted |
| FieldHelper.BooleanWordExamples | src/Helper/FieldHelper.php:328-333 | false and ' Yes ' are valid booleans: filter_var trims and accepts the words |
| Bundles.OfCategoryExactly | src/Model/BusinessBundle.php:223-234 | a process is returned for a category exactly when it is one of the bundle's processes and has that category |
| Bundles.BusinessBundle.constructor | src/Model/BusinessBundle.php:42-46 | the namespace is kept without its trailing '\' and '/' characters; the bundle starts with no description, models, processes, events or data sets |
| Bundles.BusinessBundle.SetNamespace | src/Model/BusinessBundle.php:65-70 | the namespace is stored right-trimmed of '\' and '/'; nothing else changes |
| Bundles.BusinessBundle.SetName | src/Model/BusinessBundle.php:85-90 | only the name changes |
| Bundles.BusinessBundle.GetDescription | src/Model/BusinessBundle.php:95-98 | the description once set; before that the string return type is violated |
| Bundles.BusinessBundle.SetDescription | src/Model/BusinessBundle.php:105-110 | the description is set and read back; nothing else changes |
| Bundles.BusinessBundle.AddBusinessModel | src/Model/BusinessBundle.php:125-130 | the model is stored under its name, replacing an equal name in place |
| Bundles.BusinessBundle.GetBusinessModel | src/Model/BusinessBundle.php:132-139 | null exactly when no model is stored under the name |
| Bundles.BusinessBundle.SetBusinessModels | src/Model/BusinessBundle.php:146-155 | the models become the keyed store of the list; the other collections are kept |
| Bundles.BusinessBundle.AddBusinessProcess | src/Model/BusinessBundle.php:170-177 | the process is stored under its name and its event under the event's name |
| Bundles.BusinessBundle.GetBusinessProcess | src/Model/BusinessBundle.php:179-186 | null exactly when no process is stored under the name |
| Bundles.BusinessBundle.SetBusinessProcesses | src/Model/BusinessBundle.php:193-202 | the processes become the keyed store of the list and their events are added to the events already registered, which stay |
| Bundles.BusinessBundle.GetBusinessProcessCategories | src/Model/BusinessBundle.php:207-218 | the processes' categories, each once, in first-seen order |
| Bundles.BusinessBundle.GetBusinessProcessesForCategory | src/Model/BusinessBundle.php:223-234 | the processes with the category, in order |
| Bundles.BusinessBundle.AddEvent | src/Model/BusinessBundle.php:247-252 | the event is stored under its name; nothing else changes |
| Bundles.BusinessBundle.GetEvent | src/Model/BusinessBundle.php:254-261 | null exactly when no event is stored under the name |
| Bundles.BusinessBundle.GetDataSet | src/Model/BusinessBundle.php:273-280 | null exactly when no data set is stored under the name |
| Bundles.BusinessBundle.AddDataSet | src/Model/BusinessBundle.php:301-306 | the data set is stored under its name |
| Bundles.BusinessBundle.SetDataSets | src/Model/BusinessBundle.php:287-296 | the data sets become the keyed store of the list |
| Bundles.Package.constructor | src/Model/Package.php:37-41 | the namespace is kept without its trailing '\' and '/'; no description, entities, events or sets |
| Bundles.Package.SetNamespace | src/Model/Package.php:55-60 | the namespace is stored right-trimmed of '\' and '/' |
| Bundles.Package.SetName | src/Model/Package.php:74-79 | only the name changes |
| Bundles.Package.GetDescription | src/Model/Package.php:84-87 | the description once set; before that the string return type is violated |
| Bundles.Package.SetDescription | src/Model/Package.php:93-98 | only the description changes |
| Bundles.Package.AddEntity | src/Model/Package.php:112-117 | the entity is stored under its name, replacing an equal name |
| Bundles.Package.GetEntity | src/Model/Package.php:123-130 | null exactly when no entity is stored under the name |
| Bundles.Package.SetEntities | src/Model/Package.php:136-145 | the entities become the keyed store of the list |
| Bundles.Package.AddEvent | src/Model/Package.php:174-179 | the event is stored under its code, not its name |
| Bundles.Package.GetEvent | src/Model/Package.php:185-192 | the argument is looked up among the codes; null when no event has it |
| Bundles.Package.SetEvents | src/Model/Package.php:159-168 | the events become the store of the list keyed by code |
| Bundles.Package.GetSet | src/Model/Package.php:206-213 | null exactly when no set is stored under the name |
| Bundles.Package.AddSet | src/Model/Package.php:234-239 | the set is stored under its name |
| Bundles.Package.SetSets | src/Model/Package.php:219-228 | the sets become the keyed store of the list |
| LegacyBundles.DesiredNames | src/Model/DataBundle.php:125-128 | each requested entry gives its name: a Field its own name, a string itself |
| LegacyBundles.SplitFields | src/Model/DataBundle.php:96-102 | the fields are split, by name, into the mandatory and the optional ones (unmanaged only when asked) |
| LegacyBundles.CollectMandatory | src/Model/DataBundle.php:123-134 | the mandatory loop: each requested name must be a field of the model, else InvalidArgumentException naming the field and the model |
| LegacyBundles.CollectOptional | src/Model/DataBundle.php:136-152 | the optional loop: an unknown name or one already mandatory is refused |
| LegacyBundles.SelectionCases | src/Model/DataBundle.php:120-165 | the first failure of the mandatory pass is the result; then the optional pass's; with both lists empty the unmanaged fields are split by their mandatory flag |
| LegacyBundles.Choose | src/Model/DataBundle.php:120-165 | the three passes of addFields compute the selection |
| LegacyBundles.DataBundle.constructor | src/Model/DataBundle.php:27-31 | the bundle keeps its name and description and has no models or fields |
| LegacyBundles.DataBundle.SetName | src/Model/DataBundle.php:46-51 | only the name changes |
| LegacyBundles.DataBundle.SetDescription | src/Model/DataBundle.php:66-71 | only the description changes |
| LegacyBundles.DataBundle.AddBusinessModel | src/Model/DataBundle.php:91-107 | the model is stored by name, with all its fields split into mandatory and optional by name |
| LegacyBundles.DataBundle.Record | src/Model/DataBundle.php:167-169 | the three keyed stores are written under the model's name |
| LegacyBundles.DataBundle.AddFields | src/Model/DataBundle.php:120-170 | on failure nothing changes and the error is the selection's; on success the model and both field lists are stored under the model's name |
| LegacyBundles.DataBundle.GetBusinessModelMandatoryFields | src/Model/DataBundle.php:175-182 | the stored mandatory fields of the model, or [] |
| LegacyBundles.DataBundle.GetBusinessModelOptionalFields | src/Model/DataBundle.php:187-194 | the stored optional fields of the model, or [] |
| LegacyBundles.PickMandatoryAccepts | src/Model/DataBundle.php:123-134 | the mandatory pass succeeds exactly when every requested name is a field of the model |
| LegacyBundles.PickOptionalDisjoint | src/Model/DataBundle.php:147-150 | no field is both mandatory and optional after a successful optional pass |
| LegacyBundles.PickMandatoryNonEmpty | src/Model/DataBundle.php:155 | a successful pass over a non-empty request gives a non-empty list, so the default fill is skipped |
| LegacyBundles.PickOptionalNonEmpty | src/Model/DataBundle.php:155 | the same for the optional pass |
| LegacyBundles.SplitExactly | src/Model/DataBundle.php:155-165 | the split keeps exactly the fields with the requested mandatory flag (and unmanaged when asked), each under its own name |
| Processes.WithRole | src/Model/BusinessProcess.php:473-480 | the role list afterwards holds the role and exactly the roles it held before |
| Processes.WithRoleIdempotent | src/Model/BusinessProcess.php:473-480 | adding a role that is already present changes nothing |
| Processes.Grouped | src/Model/BusinessProcess.php:258-267 | the bundle is stored under its class name and the key of its name; every other class and key keeps its entry |
| Processes.BusinessProcess.Make | src/Model/BusinessProcess.php:64-73 | a new process holds the given name, description, event, type and flags; the category is empty, and there are no triggers, roles, data or messages |
| Processes.BusinessProcess.New | src/Model/BusinessProcess.php:64-92 | construction succeeds exactly when the type is one of the process types; otherwise it fails with the invalid-type message |
| Processes.BusinessProcess.SetType | src/Model/BusinessProcess.php:86-92 | an unknown type is refused with the invalid-type message and leaves the type as it was; a known type is stored; nothing else changes |
| Processes.BusinessProcess.SetCategory | src/Model/BusinessProcess.php:105-110 | returns the same process; only the category changes |
| Processes.BusinessProcess.SetName | src/Model/BusinessProcess.php:123-128 | returns the same process; only the name changes |
| Processes.BusinessProcess.SetDescription | src/Model/BusinessProcess.php:141-146 | returns the same process; only the description changes |
| Processes.BusinessProcess.SetEvent | src/Model/BusinessProcess.php:159-164 | returns the same process; only the event changes |
| Processes.BusinessProcess.SetSynchronous | src/Model/BusinessProcess.php:177-182 | returns the same process; only the synchronous flag changes |
| Processes.BusinessProcess.SetAsynchronous | src/Model/BusinessProcess.php:195-200 | returns the same process; only the asynchronous flag changes |
| Processes.BusinessProcess.SetPeriodicTriggers | src/Model/BusinessProcess.php:213-223 | returns the same process; only the periodic triggers change |
| Processes.BusinessProcess.SetExternalAccess | src/Model/BusinessProcess.php:236-241 | returns the same process; only the external-access flag changes |
| Processes.BusinessProcess.SetRoles | src/Model/BusinessProcess.php:449-454 | returns the same process; only the roles change |
| Processes.BusinessProcess.ContainsRole | src/Model/BusinessProcess.php:459-468 | true exactly when some role in the list equals the role |
| Processes.BusinessProcess.AddRole | src/Model/BusinessProcess.php:473-480 | afterwards the process holds the role; an absent role is appended and a present one changes nothing |
| Processes.BusinessProcess.IsAllowed | src/Model/BusinessProcess.php:482-497 | an unrestricted process (no roles) allows every role; a restricted one allows exactly its roles |
| Processes.BusinessProcess.AddRequiredData | src/Model/BusinessProcess.php:258-267 | the bundle joins the required data under its class and name, replacing one with the same name; nothing else changes |
| Processes.BusinessProcess.AddProducedData | src/Model/BusinessProcess.php:341-350 | the bundle joins the produced data under its class and name, replacing one with the same name; nothing else changes |
| Processes.BusinessProcess.GetRequired | src/Model/BusinessProcess.php:269-324 | the required bundles of one kind, keyed by name; the list is non-empty exactly when data of that kind is required |
| Processes.BusinessProcess.GetProduced | src/Model/BusinessProcess.php:352-407 | the produced bundles of one kind, keyed by name; the list is non-empty exactly when data of that kind is produced |
| Processes.BusinessProcess.AddMessage | src/Model/BusinessProcess.php:422-432 | the message is stored under its identifier, replacing one with the same identifier; afterwards a message is produced |
| Processes.RequiredAfterAdds | src/Model/BusinessProcess.php:258-274 | after adding a bundle, data of a kind is required exactly when it was required before or the bundle is of that kind |
| Processes.ClassNamesDistinct | src/Model/BusinessProcess.php:269-324 | two bundle kinds share a class name exactly when they are the same class, so the three data kinds never mix |
| Datasets.CheckValues | src/Model/DataSetElement.php:23-32 | values are accepted exactly when every key is a string; otherwise the not-associative error |
| Datasets.Lookup | src/Model/DataSetElement.php:52-59 | a non-null result is the value stored under the name; a missing name gives null |
| Datasets.ReturnNullableString | src/Model/DataSetElement.php:52-59 | returning a value as a nullable string: null stays null, a date-time object is a type error, anything else is its string form |
| Datasets.ReturnString | src/Model/DatasetElement.php:56-71 | returning a value as a string: null and a date-time object are type errors, anything else is its string form |
| Datasets.DataSetElement.Empty | src/Model/DataSetElement.php:18-21 | an element built with no values holds none |
| Datasets.DataSetElement.New | src/Model/DataSetElement.php:18-32 | construction succeeds exactly when every key is a string, and then the element holds the values |
| Datasets.DataSetElement.SetValues | src/Model/DataSetElement.php:23-32 | values with a non-string key are refused with the not-associative error and the old values stay; otherwise they replace them |
| Datasets.DataSetElement.AddValue | src/Model/DataSetElement.php:45-50 | returns the same element; the value is stored under the name, replacing an earlier one |
| Datasets.DataSetElement.GetValue | src/Model/DataSetElement.php:52-59 | a missing name gives null; a date-time value cannot be returned as a string; any other result is the string form of the stored value |
| Datasets.Complaint | src/Model/DataSet.php:156-158 | the complaint about one incompatible value fails exactly when the value is a date-time object, which cannot be interpolated |
| Datasets.Complaints | src/Model/DataSet.php:151-162 | the complaints fail exactly when some incompatible value is a date-time object; otherwise there is one complaint per misfit |
| Datasets.MisfitsExactly | src/Model/DataSet.php:151-162 | a misfit is recorded exactly for a value whose key names a field and which is not compatible with it |
| Datasets.InvalidGrows | src/Model/DataSet.php:151-162 | scanning more values never loses an invalid value already found |
| Datasets.ScanMissing | src/Model/DataSet.php:147-154 | after the scan the missing fields are exactly the fields no value names, each with its own field |
| Datasets.ScanUnknown | src/Model/DataSet.php:151-162 | with distinct keys, the unknown names are exactly the value keys that name no field |
| Datasets.ScanInvalid | src/Model/DataSet.php:151-162 | with distinct keys, the invalid values found are exactly the misfits |
| Datasets.MisfitAt | src/Model/DataSet.php:151-162 | every misfit comes from a value of the row that is incompatible with its field |
| Datasets.ValueMisfits | src/Model/DataSet.php:151-162 | every value of the row that is incompatible with its field is a misfit |
| Datasets.DateTimeMisfit | src/Model/DataSet.php:156-158 | some misfit is a date-time object exactly when some incompatible value of the row is one |
| Datasets.NoMisfit | src/Model/DataSet.php:151-162 | there are no misfits exactly when every value is compatible with its field |
| Datasets.FailsOnDateTime | src/Model/DataSet.php:141-180 | adding an element fails with the string-conversion error exactly when an incompatible value is a date-time object |
| Datasets.NoneMissing | src/Model/DataSet.php:147-163 | no field is missing exactly when every field is named by a value |
| Datasets.NoneUnknown | src/Model/DataSet.php:151-169 | with distinct keys, no name is unknown exactly when every value names a field |
| Datasets.AcceptedExactly | src/Model/DataSet.php:141-180 | an element is accepted exactly when its keys are the fields' keys and every value is compatible |
| Datasets.MissingReportedFirst | src/Model/DataSet.php:163-168 | when a field is missing, the rejection lists the missing fields and then any unknown names, whatever the invalid values |
| Datasets.InvalidReportedLast | src/Model/DataSet.php:172-176 | a rejection of a row whose keys match lists the complaints about its incompatible values |
| Datasets.FieldSupport | src/Model/DataSet.php:92-100 | a field is accepted exactly when it is native and not a list; a non-native one and a list each get their own message |
| Datasets.ScanRow | src/Model/DataSet.php:144-162 | the loop over the values gives the missing fields, unknown names and complaints of the scan, or stops on a date-time complaint |
| Datasets.DataSet.constructor | src/Model/DataSet.php:31-35 | a new data set has the name and description and no fields or elements |
| Datasets.DataSet.SetName | src/Model/DataSet.php:48-51 | only the name changes |
| Datasets.DataSet.SetDescription | src/Model/DataSet.php:64-67 | only the description changes |
| Datasets.DataSet.AddField | src/Model/DataSet.php:92-104 | a supported field is stored under its name; an unsupported one is refused and leaves the fields as they were |
| Datasets.DataSet.SetFields | src/Model/DataSet.php:82-90 | the fields are cleared and added in order up to the first unsupported one, which stops the call with its error |
| Datasets.DataSet.GetField | src/Model/DataSet.php:109-116 | the field stored under the name, or null exactly when there is none |
| Datasets.DataSet.AddElement | src/Model/DataSet.php:141-180 | the element is appended exactly when it is accepted; otherwise the elements stay as they were and the error says why |
| Datasets.DataSet.SetElements | src/Model/DataSet.php:131-139 | the elements are cleared and added in order up to the first rejected one, which stops the call with its error |
| Datasets.DatasetElement.Empty | src/Model/DatasetElement.php:22-25 | an element built with no values holds none and belongs to no data set |
| Datasets.DatasetElement.New | src/Model/DatasetElement.php:22-82 | construction succeeds exactly when every key is a string, and then the element holds the values and no data set |
| Datasets.DatasetElement.SetDataset | src/Model/DatasetElement.php:38-43 | returns the same element; only the data set changes |
| Datasets.DatasetElement.SetValues | src/Model/DatasetElement.php:73-82 | values with a non-string key are refused and the old values stay; otherwise they replace them |
| Datasets.DatasetElement.AddValue | src/Model/DatasetElement.php:95-100 | returns the same element; the value is stored under the name, replacing an earlier one |
| Datasets.DatasetElement.GetValue | src/Model/DatasetElement.php:102-109 | a non-null result is the stored value; a missing name gives null |
| Datasets.DatasetElement.GetIdentifierValue | src/Model/DatasetElement.php:48-54 | without a data set or an identifier the logic error; otherwise the value stored under the identifier's name |
| Datasets.DatasetElement.GetUniqueName | src/Model/DatasetElement.php:56-71 | a string identifier's value; else a unique name field's value; else the data set name, '_' and the identifier's value; without a data set the logic error |
| DataModel.Resolve | src/Model/Data/Data.php:89-112 | the requested field is found exactly when the request is a field or a name, the model has a field of that name and the details are basic, reference or full; each failure has its own message |
| DataModel.ResolveInput | src/Model/Data/InputData.php:32-38 | an input type outside the known ones is refused with its message before the field is looked up |
| DataModel.Data.Make | src/Model/Data/Data.php:36-43 | a new data item holds the model, the resolved field and the details |
| DataModel.Data.New | src/Model/Data/Data.php:36-43 | construction succeeds exactly when the field resolves, and then holds the model's own field of that name |
| DataModel.Data.NewEventData | src/Model/Data/EventData.php:18-22 | like a data item, with the mandatory flag it was given |
| DataModel.Data.NewExistingData | src/Model/Data/ExistingData.php:21-26 | like a data item, with the source it was given |
| DataModel.Data.NewInputData | src/Model/Data/InputData.php:32-38 | fails on an unknown input type or an unresolved field; otherwise a data item with the type and mandatory flag |
| DataModel.Data.IsSame | src/Model/Data/Data.php:69-82 | two items are the same exactly when their model names, field names and details agree |
| DataModel.Data.SetMandatory | src/Model/Data/InputData.php:72-77 | returns the same item; only the mandatory flag changes |
| DataModel.Data.SetSource | src/Model/Data/ExistingData.php:39-44 | returns the same item; only the source changes |
| DataModel.Data.SetType | src/Model/Data/InputData.php:53-59 | an unknown input type is refused with its message and leaves the item as it was; a known one is stored |
| DataModel.IsSameEquivalence | src/Model/Data/Data.php:69-82 | sameness is reflexive, symmetric and transitive |
| DataModel.SameRequestIsSame | src/Model/Data/Data.php:69-112 | two items built from the same model, request and details are the same |
| DataModel.FetchAdmission | src/Model/Data/FetchDataBundle.php:52-61 | a fetch bundle passes on exactly existing data of its own source; other data and another source each get their own message |
| DataModel.DataBundle.constructor | src/Model/Data/DataBundle.php:33-37 | a new bundle has the name and description, a simple structure and no data |
| DataModel.DataBundle.NewFetch | src/Model/Data/FetchDataBundle.php:20-24 | a new fetch bundle has the source, no query and no data |
| DataModel.DataBundle.NewInternal | src/Model/Data/InternalDataBundle.php:18-22 | a new internal bundle has the data client and no data |
| DataModel.DataBundle.NewExternal | src/Model/Data/ExternalDataBundle.php:18-22 | a new external bundle has the API client and no data |
| DataModel.DataBundle.SetName | src/Model/Data/DataBundle.php:42-47 | returns the same bundle; only the name changes |
| DataModel.DataBundle.SetDescription | src/Model/Data/DataBundle.php:60-65 | returns the same bundle; only the description changes |
| DataModel.DataBundle.GetStructure | src/Model/Data/DataBundle.php:78-81 | the structure is always simple or list |
| DataModel.DataBundle.SetAsSimpleStructure | src/Model/Data/DataBundle.php:88-93 | returns the same bundle, now simple |
| DataModel.DataBundle.SetAsListStructure | src/Model/Data/DataBundle.php:108-113 | returns the same bundle, now a list |
| DataModel.DataBundle.IsSimpleStructure | src/Model/Data/DataBundle.php:98-101 | true exactly when the structure is simple |
| DataModel.DataBundle.IsListStructure | src/Model/Data/DataBundle.php:118-121 | true exactly when the structure is a list, which is exactly when it is not simple |
| DataModel.DataBundle.IsMapStructure | src/Model/Data/DataBundle.php:126-129 | no bundle is ever a map |
| DataModel.DataBundle.Store | src/Model/Data/DataBundle.php:141-152 | the item is stored under its model name and field name, replacing an item already there |
| DataModel.DataBundle.Add | src/Model/Data/EventDataBundle.php:20-29 | an event bundle rebuilds a non-event item as event data with the field's mandatory flag before storing it; every other add stores the item itself |
| DataModel.DataBundle.StoreAsEvent | src/Model/Data/EventDataBundle.php:20-27 | the rebuilt event item is stored, or the rebuild's error is returned and the data stay as they were |
| DataModel.DataBundle.AddData | src/Model/Data/FetchDataBundle.php:52-61 | the answer is the fetch bundle's admission rule for the item |
| DataModel.DataBundle.GetQuery | src/Model/Data/FetchDataBundle.php:29-32 | the query once set; before that, the type error of returning null as a string |
| DataModel.DataBundle.SetQuery | src/Model/Data/FetchDataBundle.php:37-42 | returns the same bundle; only the query changes, and reading it back gives it |
| DataModel.DataBundle.SetDataClient | src/Model/Data/InternalDataBundle.php:27-32 | returns the same bundle; only the data client changes |
| DataModel.DataBundle.SetApiClient | src/Model/Data/ExternalDataBundle.php:27-32 | returns the same bundle; only the API client changes |
| DataModel.DataBundle.IsPresent | src/Model/Data/DataBundle.php:154-157 | true exactly when an item is stored under the model name and field name |
| DataModel.DataBundle.GetEntry | src/Model/Data/DataBundle.php:159-166 | the stored item, or null exactly when none is present |
| DataModel.DataBundle.RemoveEntry | src/Model/Data/DataBundle.php:168-177 | reports whether the item was present; a present item is unset, and its model entry stays even when it is left empty |
| DataModel.DataBundle.ListData | src/Model/Data/DataBundle.php:197-204 | the items stored for one model by field name; an absent model gives none |
| DataBundleHelpers.Make | src/Helper/DataBundleHelper.php:189-195 | building one item's data succeeds exactly when its plan does, and the new data shows what was planned |
| DataBundleHelpers.StoreItem | src/Model/Data/DataBundle.php:141-152 | one item's data is stored under its keys as planned, or its error is returned and the bundle stays as it was |
| DataBundleHelpers.StoreEach | src/Helper/DataBundleHelper.php:189-195 | the items are stored in order, each as its plan says, up to the first failing plan, whose error is the outcome |
| DataBundleHelpers.KeptExactly | src/Helper/DataBundleHelper.php:129-182 | the fields kept by a filter are exactly the fields it accepts, in their order |
| DataBundleHelpers.ExcludedNames | src/Helper/DataBundleHelper.php:257-270 | one name per exclusion: a field's own name or the string given |
| DataBundleHelpers.IsFieldInList | src/Helper/DataBundleHelper.php:257-270 | true exactly when the field's name is among the excluded names |
| DataBundleHelpers.EntryFlat | src/Helper/DataBundleHelper.php:272-286 | every data held by the existing bundle is among the data copyData copies |
| DataBundleHelpers.CopyItems | src/Helper/DataBundleHelper.php:272-286 | each data to copy becomes one request for its own model, field and details, with no mandatory flag |
| DataBundleHelpers.RefillKeepsKeys | src/Helper/DataBundleHelper.php:272-286 | storing again under keys already present keeps every model key and every field key |
| DataBundleHelpers.DataBundleHelper.constructor | src/Helper/DataBundleHelper.php:27-31 | the helper holds the business bundle and the details used for attributes |
| DataBundleHelpers.DataBundleHelper.MapDetails | src/Helper/DataBundleHelper.php:236-252 | a name the model does not define is refused with its message; a native field gets the attribute details and any other field the details asked for |
| DataBundleHelpers.DataBundleHelper.RequestItems | src/Helper/DataBundleHelper.php:103-122 | one request per field asked for, in order, each with its mapped details and the given mandatory flag |
| DataBundleHelpers.DataBundleHelper.FieldItems | src/Helper/DataBundleHelper.php:200-231 | one request per field, in order; event data take each field's own mandatory flag |
| DataBundleHelpers.DataBundleHelper.AddFieldsAsMandatory | src/Helper/DataBundleHelper.php:103-109 | each field asked for is stored, in order, as mandatory event data, up to the first one that fails |
| DataBundleHelpers.DataBundleHelper.AddFieldsAsOptional | src/Helper/DataBundleHelper.php:116-122 | each field asked for is stored, in order, as optional event data, up to the first one that fails |
| DataBundleHelpers.DataBundleHelper.AddFields | src/Helper/DataBundleHelper.php:189-195 | each field asked for is stored, in order, as plain data, up to the first one that fails |
| DataBundleHelpers.DataBundleHelper.AddBusinessModel | src/Helper/DataBundleHelper.php:129-140 | an event bundle gets the unmanaged fields as event data; any other bundle gets every field; in order, up to the first failure |
| DataBundleHelpers.DataBundleHelper.AddBusinessModelAttributes | src/Helper/DataBundleHelper.php:145-160 | the fields whose type names no model of the bundle are stored at reference details; managed ones only when asked and never in an event bundle |
| DataBundleHelpers.DataBundleHelper.AddBusinessModelExceptFields | src/Helper/DataBundleHelper.php:169-182 | every field not among the exclusions is stored; an event bundle also leaves out managed fields |
| DataBundleHelpers.DataBundleHelper.CopyStructure | src/Helper/DataBundleHelper.php:272-278 | the target takes the existing bundle's structure |
| DataBundleHelpers.DataBundleHelper.CopyData | src/Helper/DataBundleHelper.php:272-286 | the target takes the structure and then a new plain data for each data of the existing bundle, in order, up to the first failure |
| DataBundleHelpers.DataBundleHelper.NewBundle | src/Helper/DataBundleHelper.php:37-44 | a new empty bundle of the class asked for, with the existing bundle's name and description |
| DataBundleHelpers.DataBundleHelper.CreateFromExisting | src/Helper/DataBundleHelper.php:37-96 | the new bundle has the class asked for, the existing name, description and structure, and a copy of every data, or the first copying error |
| DataBundleHelpers.DataBundleHelper.MapDetailsFailsLikeData | src/Helper/DataBundleHelper.php:236-252 | when mapDetails refuses a field, the data constructor refuses it with the same error |
| DataNames.Candidates | src/Helper/DataNameHelper.php:36-53 | the names tried are the field name first, then the camelized model and field names, then the camelized bundle, model and field names |
| DataNames.Pick | src/Helper/DataNameHelper.php:32-65 | the picked name is a candidate nobody holds and the conflicts are held names; a free field name is kept with no conflict; it fails with the runtime message exactly when all three candidates are held |
| DataNames.PickIsFirstFree | src/Helper/DataNameHelper.php:39-57 | the picked name is the first candidate not held, and the conflicts are exactly the candidates before it |
| DataNames.DataNameHelper.constructor | src/Helper/DataNameHelper.php:17-20 | a new helper has reserved no names |
| DataNames.DataNameHelper.GetData | src/Helper/DataNameHelper.php:22-25 | the data holding the name, or null exactly when the name was never reserved |
| DataNames.DataNameHelper.GetBundleName | src/Helper/DataNameHelper.php:27-30 | the bundle the name was reserved for, or none exactly when it was never reserved |
| DataNames.DataNameHelper.AssignDataName | src/Helper/DataNameHelper.php:32-65 | the data takes the picked name, which is reserved for it and its bundle, and the conflicts are returned; when all three names are taken nothing changes and the runtime error is returned |
| EventHelpers.Tagged | src/Helper/EventHelper.php:35-37 | each data of a bundle is visited with the bundle's name, in order |
| EventHelpers.Labels | src/Helper/DataNameHelper.php:36-38 | each visited data's model name and field name, in order |
| EventHelpers.Reserve | src/Helper/EventHelper.php:38 | one call of assignDataName, with the reservation it makes or the error it throws |
| EventHelpers.Enter | src/Helper/EventHelper.php:37-38 | the next data reserves a name; the names it contested become pending and the naming invariant still holds |
| EventHelpers.Settle | src/Helper/EventHelper.php:42-49 | a pending conflict renames its holder only when the holder still answers to that name; the naming invariant still holds |
| EventHelpers.Rename | src/Helper/EventHelper.php:45-48 | the holder that still answers to the contested name gets a new name through assignDataName; the invariant still holds |
| EventHelpers.Round | src/Helper/EventHelper.php:41-51 | one pass over the conflicts settles each of them and gathers the new conflicts |
| EventHelpers.Resolve | src/Helper/EventHelper.php:40-52 | the conflict loop ends, with no pending conflict and the naming invariant kept, or with the runtime error |
| EventHelpers.NameEntry | src/Helper/EventHelper.php:37-53 | naming one data and resolving the conflicts it raised keeps the naming invariant for the data visited so far |
| EventHelpers.SetDataNames | src/Helper/EventHelper.php:31-56 | afterwards every data of the event has a name no other data holds; a data keeps its field name unless that name was contested, and then nobody holds it; a field name shared by two data is held by nobody; a failure is the runtime error |
| EventHelpers.NameAll | src/Helper/EventHelper.php:35-55 | the loop over every data of the event gives the same three guarantees as setDataNames |
| EventHelpers.KeyedKeepsAll | src/Helper/EventHelper.php:13-20 | once names are unique, keying the data by name keeps each data under its own name |
| EventHelpers.KeyByName | src/Helper/EventHelper.php:13-20 | every data of the event is found under its own name in the result |
| EventHelpers.GetNamedData | src/Helper/EventHelper.php:9-23 | after naming, each data of the event is found under its own unique name; a failure is the runtime error |
| ModelHelpers.RepositoryClassDecomposes | src/Helper/BusinessModelHelper.php:15-18 | every repository class name ends with 'Repository', and two names share one exactly when the inflector classifies them alike |
| ModelHelpers.FirstMatchIsFirst | src/Helper/BusinessModelHelper.php:23-37 | the search finds nothing exactly when no field passes the test; otherwise it finds the first field that passes |
| ModelHelpers.FindFirst | src/Helper/BusinessModelHelper.php:23-37 | the loop returns the first field that passes the test, or null |
| ModelHelpers.FirstManaged | src/Helper/BusinessModelHelper.php:23-37 | the result is null exactly when no managed field passes the test; otherwise it is a managed field of the list that passes |
| ModelHelpers.GetCreatedTimestampField | src/Helper/BusinessModelHelper.php:23-37 | the first managed field that is a created-at timestamp, or null exactly when there is none |
| ModelHelpers.GetUpdatedTimestampField | src/Helper/BusinessModelHelper.php:42-56 | the first managed field that is an updated-at timestamp, or null exactly when there is none |
| ModelHelpers.GetEntityCreatedTimestampField | src/Helper/EntityHelper.php:27-41 | the first managed field of the entity that is a created-at timestamp, or null exactly when there is none |
| ModelHelpers.GetEntityUpdatedTimestampField | src/Helper/EntityHelper.php:48-62 | the first managed field of the entity that is an updated-at timestamp, or null exactly when there is none |
| ModelHelpers.AnyManaged | src/Helper/BusinessModelHelper.php:58-72 | true exactly when some managed field is a created-at or updated-at timestamp |
| ModelHelpers.IsManagedTimestamp | src/Helper/BusinessModelHelper.php:58-72 | true exactly when some managed field of the model is a created-at or updated-at timestamp |
| ModelHelpers.EntityIsManagedTimestamp | src/Helper/EntityHelper.php:64-78 | true exactly when some managed field of the entity is a created-at or updated-at timestamp |
| ModelHelpers.ManagedTimestampIffGetter | src/Helper/BusinessModelHelper.php:23-72 | a managed timestamp exists exactly when one of the two getters finds a field |
| ModelHelpers.RemoteOwners | src/Helper/BusinessModelHelper.php:79-91 | the owner of the remote side of each relation, in order |
| ModelHelpers.CollectLinked | src/Helper/BusinessModelHelper.php:79-91 | the loop gives the linked owners, each once, or the null-call error |
| ModelHelpers.LinkedStep | src/Helper/BusinessModelHelper.php:84-88 | one more relation adds its remote owner when it is not already listed |
| ModelHelpers.LinkedOwnersExactly | src/Helper/BusinessModelHelper.php:79-91 | the list exists exactly when every relation has a remote side; it then holds each remote owner exactly once; otherwise the null-call error |
| ModelHelpers.GetLinkedBusinessModels | src/Helper/BusinessModelHelper.php:79-91 | the owners of the remote sides of the model's relations, each once |
| ModelHelpers.GetLinkedEntities | src/Helper/EntityHelper.php:85-97 | the owners of the remote sides of the entity's relations, each once |
| ModelHelpers.BusinessAttributesExactly | src/Helper/BusinessModelHelper.php:99-116 | a field is a business attribute exactly when it is native and unmanaged, or not native and naming no model of the bundle; order is kept |
| ModelHelpers.ListBusinessAttributeFields | src/Helper/BusinessModelHelper.php:99-116 | the loop returns exactly the business attributes, in field order |
| ModelHelpers.BusinessAttributeMeans | src/Helper/BusinessModelHelper.php:106-112 | the business-attribute test is the source's nested native, managed and model-lookup test |
| ModelHelpers.LastNaming | src/Helper/BusinessModelHelper.php:133-138 | the index of the last constraint naming the field, or -1 when none does |
| ModelHelpers.IsUniqueField | src/Helper/BusinessModelHelper.php:127-140 | as written: true exactly when the last constraint naming the field holds only that field |
| ModelHelpers.WiderConstraintHidesUnique | src/Helper/BusinessModelHelper.php:127-140 | a single-field constraint followed by a wider one over the same field makes the field unique by the documented rule but not by the loop |
| ModelHelpers.IsUniqueFieldCorrected | src/Helper/BusinessModelHelper.php:117-126 | true exactly when some unique constraint holds only this field |
| ModelHelpers.UniqueRulesAgreeOnOneConstraint | src/Helper/BusinessModelHelper.php:117-140 | when only one constraint names the field, the loop and the documented rule agree |
| Relationships.BackFieldsExactly | src/Helper/BusinessBundleHelper.php:54-60 | the fields that can link back are exactly the remote fields whose type is the owner's name, in order |
| Relationships.CollectBackFields | src/Helper/BusinessBundleHelper.php:55-60 | the loop collects exactly the remote fields whose type is the owner's name |
| Relationships.BidirectionalShape | src/Helper/BusinessBundleHelper.php:86-98 | two lists make a many-to-many, two scalars a one-to-one and a list with a scalar a one-to-many; the field's side is left unless only the remote field is a list |
| Relationships.SideChoice | src/Helper/BusinessBundleHelper.php:83-98 | in a one-to-many the list side is left whichever field is linked first; in the symmetric cases the field linked first is left |
| Relationships.Link | src/Helper/BusinessBundleHelper.php:54-103 | no back field gives a one-way relation (one-to-many for a list); one back field gives a two-way relation shaped by the two list flags; several are refused with the runtime message; over business models this is the corrected behaviour (see Findings) |
| Relationships.LinkOneWay | src/Helper/BusinessBundleHelper.php:62-71 | the field's side is left and the remote side has no field; the type follows the field's list flag; over business models this is the corrected behaviour (see Findings) |
| Relationships.LinkBothWays | src/Helper/BusinessBundleHelper.php:74-100 | both fields get a side of the one relation, placed and typed by the list flags, and each field holds its side; over business models this is the corrected behaviour (see Findings) |
| Relationships.CreateModelRelationship | src/Helper/BusinessBundleHelper.php:45-104 | corrected (see Findings): a missing remote model is refused with the runtime message; otherwise the relation is linked as Link says; a failure leaves the field unlinked |
| Relationships.BuildModelRelationships | src/Helper/BusinessBundleHelper.php:29-40 | corrected (see Findings): afterwards every field typed with a model of the bundle has a relation; a failure is a runtime error; no relation is ever cleared |
| Relationships.ModelStep | src/Helper/BusinessBundleHelper.php:31-39 | corrected (see Findings): after one more model, every model visited has its model-typed fields linked |
| Relationships.LinkModelFields | src/Helper/BusinessBundleHelper.php:32-38 | corrected (see Findings): every model-typed field of the model ends up linked, or a runtime error stops the loop |
| Relationships.LinkStep | src/Helper/BusinessBundleHelper.php:32-38 | corrected (see Findings): after one more field, every field visited is linked when it is model-typed |
| Relationships.LinkModelField | src/Helper/BusinessBundleHelper.php:33-37 | corrected (see Findings): a model-typed field without a relation gets one; a field already linked is skipped |
| Relationships.CreateModelRelationshipAsWritten | src/Helper/BusinessBundleHelper.php:45-104 | as written, every call fails: a missing remote model with the runtime message, zero or one back field with the TypeError of RelationshipSide's Entity-typed constructor, several back fields with the runtime message |
| Relationships.BuildModelRelationshipsAsWritten | src/Helper/BusinessBundleHelper.php:29-40 | as written, the build succeeds exactly when every model-typed field already has a relation, and otherwise fails with that TypeError or a runtime error |
| Relationships.LinkModelFieldsAsWritten | src/Helper/BusinessBundleHelper.php:32-38 | as written, the loop over one model succeeds exactly when its model-typed fields are all linked already |
| Relationships.CreateEntityRelationship | src/Helper/PackageHelper.php:52-110 | a missing remote entity is refused with the runtime message; otherwise the relation is linked as Link says; a failure leaves the field unlinked |
| Relationships.BuildEntityRelationships | src/Helper/PackageHelper.php:32-43 | afterwards every entity-typed field of the package has a relation; a failure is a runtime error; no relation is ever cleared |
| Relationships.EntityStep | src/Helper/PackageHelper.php:34-42 | after one more entity, every entity visited has its entity-typed fields linked |
| Relationships.LinkEntityFields | src/Helper/PackageHelper.php:35-41 | every entity-typed field of the entity ends up linked, or a runtime error stops the loop |
| Relationships.EntityLinkStep | src/Helper/PackageHelper.php:35-41 | after one more field, every field visited is linked when it is entity-typed |
| Relationships.LinkEntityField | src/Helper/PackageHelper.php:36-40 | an entity-typed field without a relation gets one; a field already linked is skipped |
| Artifacts.BaseDirectory | src/Helper/ArtifactHelper.php:17-29 | code goes under 'src', tests under 'tests', documentation under 'docs', and every other category under '.' |
| Artifacts.JavaBasePath | src/Helper/ArtifactHelper.php:88-91 | the namespace in lower case with dots, backslashes and spaces turned into slashes, character for character |
| Artifacts.JavaBasePathShape | src/Helper/ArtifactHelper.php:88-91 | a Java base path has no dot, backslash, space or upper-case letter |
| Artifacts.Directory | src/Helper/ArtifactHelper.php:15-64 | MySQL migrations go to 'migrations'; PHP and Java entities, repositories and PHP migrations get their own sub-directory of the base; anything else stays in the base |
| Artifacts.DirectoryDependsOn | src/Helper/ArtifactHelper.php:15-64 | the directory never depends on the variant, depends on the namespace only for Java entities and repositories, and matches the type case-sensitively |
| Artifacts.DirectoryUnderBase | src/Helper/ArtifactHelper.php:15-64 | every directory but the MySQL migrations one starts with the category's base directory |
| Artifacts.FilenameExtension | src/Helper/ArtifactHelper.php:66-86 | php, java, sh and mysql get '.php', '.java', '.sh' and '.sql'; every other format gets '.txt' |
| Artifacts.TemplateDirectory | src/Renderer/TemplateRenderer.php:176-192 | the directory is one segment per non-empty part: category, format (not for projects) and type |
| Artifacts.TemplateFilename | src/Renderer/TemplateRenderer.php:172-196 | the file name is the directory, the template name, the extension and '.twig' |
| Artifacts.TemplateFilenameSuffix | src/Renderer/TemplateRenderer.php:192-195 | the file name ends with the template's own name, unchanged in case, the extension and '.twig' |
| Artifacts.TemplateDirectoryLowerCase | src/Renderer/TemplateRenderer.php:192 | the directory part has no upper-case letter |
| Artifacts.TemplateDirectoryIgnoresCase | src/Renderer/TemplateRenderer.php:176-192 | two artifacts whose parts agree up to case load their templates from the same directory |
| Artifacts.ProjectTemplateIgnoresFormat | src/Renderer/TemplateRenderer.php:181-186 | a project template's directory does not depend on the format |
| Artifacts.TemplateDirectorySegments | src/Renderer/TemplateRenderer.php:176-192 | each part adds a segment exactly when PHP finds it non-empty; the format never does for projects |
| Artifacts.StringOffset | src/Builder/ArtifactBuilderFactory.php:41-42 | a type PHP 7 reads as an integer numeric string and that falls within the class name (negative counting from the end) reads exactly that one character; any other type reads nothing |
| Artifacts.BuilderFor | src/Builder/ArtifactBuilderFactory.php:36-52 | a runtime failure always names the lower-cased type |
| Artifacts.ArtifactBuilderFactory.constructor | src/Builder/ArtifactBuilderFactory.php:18-29 | the factory starts with the default builder table |
| Artifacts.ArtifactBuilderFactory.CreateBuilder | src/Builder/ArtifactBuilderFactory.php:36-52 | the builder is the one the table gives for the category and type |
| Artifacts.DefaultLookup | src/Builder/ArtifactBuilderFactory.php:18-52 | for a type that is not an integer numeric string: symfony under project gives the project script builder, entity, repository and the two migrations their builders, and anything else the runtime error naming the lower-cased type |
| Artifacts.NoOffsetUnderStringKey | src/Builder/ArtifactBuilderFactory.php:41 | a type that is not an integer numeric string reads no character of any class name |
| Artifacts.DefaultEntry | src/Builder/ArtifactBuilderFactory.php:20-28 | the default table maps entity, repository, migration and revertmigration to their builders and project to the symfony table |
| Artifacts.IntegerTypeUnderPlainBuilder | src/Builder/ArtifactBuilderFactory.php:41-43 | a type '0' under the entity category makes PHP instantiate the class 'C' and fail; under code it gives the runtime error |
| Artifacts.EntityBuilderOffsetZero | src/Builder/ArtifactBuilderFactory.php:41 | offset '0' of the entity builder's class name is 'C' |
| Artifacts.LeadingZeroTypeUnderPlainBuilder | src/Builder/ArtifactBuilderFactory.php:41-43 | a type '01' under the entity category reads offset 1 of the builder's class name, so PHP instantiates the class 'o' and fails |
| Templates.Store | src/Template/TemplateRegistry.php:42 | the template is filed under the four keys and every other key keeps its template |
| Templates.Lookup | src/Template/TemplateRegistry.php:58-70 | a template is found exactly when one is filed under the lower-cased keys; otherwise the exception names the lower-cased keys |
| Templates.AllOf | src/Template/TemplateRegistry.php:88-90 | every template of one format's variants, in order |
| Templates.TemplateRegistry.constructor | src/Template/TemplateRegistry.php:16-31 | a new registry holds the default templates, added in order |
| Templates.TemplateRegistry.AddAll | src/Template/TemplateRegistry.php:116-157 | the templates are added one after another |
| Templates.TemplateRegistry.AddTemplate | src/Template/TemplateRegistry.php:33-43 | the template is filed under its artifact's lower-cased category, type, format and variant, replacing one already there |
| Templates.TemplateRegistry.GetTemplate | src/Template/TemplateRegistry.php:58-70 | the template filed under the lower-cased keys, or the no-template exception |
| Templates.TemplateRegistry.GetTemplateForArtifact | src/Template/TemplateRegistry.php:50-53 | the template for the artifact's category, type, format and variant |
| Templates.TemplateRegistry.ListTemplates | src/Template/TemplateRegistry.php:75-114 | the loops list every template under the category, narrowed to the type and the format when given, in filing order |
| Templates.CollectVariants | src/Template/TemplateRegistry.php:88-90 | the loop appends every template of one format, in order |
| Templates.CollectFormats | src/Template/TemplateRegistry.php:94-98 | the loop appends every template of every format of one type, in order |
| Templates.AddThenGet | src/Template/TemplateRegistry.php:33-70 | after adding a template, asking for its keys in any case gives it, and asking for any other keys gives what it gave before |
| Templates.LookupIgnoresCase | src/Template/TemplateRegistry.php:58-63 | asking with the keys upper-cased gives the same answer |
| Templates.LastFiled | src/Template/TemplateRegistry.php:42 | the last of several templates filed under one key is the one kept; none when no template has the key |
| Templates.FindAddedAll | src/Template/TemplateRegistry.php:42 | after adding several templates, a key holds the last one filed under it, or what it held before |
| Templates.DefaultContents | src/Template/TemplateRegistry.php:116-157 | a new registry finds each default template under its own keys and nothing under any other key |
| Templates.ContentsOfDistinct | src/Template/TemplateRegistry.php:33-43 | templates filed under distinct keys are each found, and nothing else is |
| Templates.LastFiledFinds | src/Template/TemplateRegistry.php:42 | some template is kept under a key exactly when one was filed under it |
| Templates.DefaultCategories | src/Template/TemplateRegistry.php:116-157 | there are eleven default templates: one project template, one documentation template and nine code templates |
| Templates.DefaultsDistinct | src/Template/TemplateRegistry.php:116-157 | no two default templates are filed under the same keys |
| Templates.LastFiledDistinct | src/Template/TemplateRegistry.php:42 | when keys are distinct, each template is the one kept under its key |
| Templates.StoreWellFormed | src/Template/TemplateRegistry.php:42 | filing a template keeps every level of the registry free of repeated keys |
| Templates.AddedAllWellFormed | src/Template/TemplateRegistry.php:33-43 | adding several templates keeps the registry free of repeated keys |
| Templates.VariantsMembers | src/Template/TemplateRegistry.php:88-90 | a template is listed for a format exactly when some variant holds it |
| Templates.AllFormatsAt | src/Template/TemplateRegistry.php:94-98 | a template is listed for a type exactly when one of its formats lists it |
| Templates.AllTypesAt | src/Template/TemplateRegistry.php:103-109 | a template is listed for a category exactly when one of its types lists it |
| Templates.FormatsMembers | src/Template/TemplateRegistry.php:94-98 | a template is listed for a type exactly when some format and variant hold it |
| Templates.TypesMembers | src/Template/TemplateRegistry.php:103-109 | a template is listed for a category exactly when some type, format and variant hold it |
| Templates.ListedCategory | src/Template/TemplateRegistry.php:101-110 | listing by category alone gives exactly the templates filed under the lower-cased category |
| Templates.ListedType | src/Template/TemplateRegistry.php:92-99 | listing by category and type gives exactly the templates filed under both, lower-cased |
| Templates.ListedFormat | src/Template/TemplateRegistry.php:84-91 | listing by category, type and format gives exactly the templates filed under all three, lower-cased |
| Templates.DefaultsWellFormed | src/Template/TemplateRegistry.php:16-31 | a new registry has no repeated keys at any level |
| ProjectConfig.SetChild | src/Command/ProjectConfiguration.php:40 | writing one key of a PHP array: fails exactly on a scalar ("Cannot use a scalar value as an array"), otherwise sets that key and leaves every other key as it was |
| ProjectConfig.SetAt | src/Command/ProjectConfiguration.php:52-54 | a two-level write `$c[k1][k2] = v` fails exactly when the node or its child is a scalar; otherwise the written place reads back v and every other two-level place is unchanged |
| ProjectConfig.Appended | src/Command/ProjectConfiguration.php:153-155 | `$list[] = v` appends v under the next integer key, one above every integer key already present; past PHP_INT_MAX nothing is appended |
| ProjectConfig.Made | src/Command/ProjectConfiguration.php:95-122 | an Artifact is made exactly when its type and variant are strings; a null or array type or variant is the TypeError of argument 2 or 4 of the Artifact constructor |
| ProjectConfig.FromFormats | src/Command/ProjectConfiguration.php:82-133 | every format entry of a category is decoded once, in order |
| ProjectConfig.AddedToCategory | src/Command/ProjectConfiguration.php:141-156 | adding under a category fails exactly when the category or its format entry is a scalar; otherwise the format list gains the artifact written as its type, or as a type => variant pair when the variant is non-empty, and the other formats are unchanged |
| ProjectConfig.AddedArtifact | src/Command/ProjectConfiguration.php:138-159 | adding an artifact fails exactly when a node on its path is a scalar; otherwise only its own category changes, as AddedToCategory says |
| ProjectConfig.RelationalExactly | src/Command/ProjectConfiguration.php:161-171 | a relational database is configured exactly when the code category is an array holding a non-null entry whose key is 'mysql' in any letter case |
| ProjectConfig.RelationalAfterAdd | src/Command/ProjectConfiguration.php:138-171 | after a code artifact of format MySQL (any case) is added, a relational database is configured |
| ProjectConfig.StringReturn | src/Command/ProjectConfiguration.php:33-36 | a string return type accepts exactly a scalar; a missing value is the TypeError of a null return |
| ProjectConfig.LoadedBundle | src/Command/ProjectConfiguration.php:45-48 | the bundle read as written never carries a description, whatever the configuration holds |
| ProjectConfig.LoadedBundleIntended | src/Command/ProjectConfiguration.php:45-48 | the corrected read fails exactly as the written one does and differs from it only in the description, present exactly when the configuration holds one |
| ProjectConfig.DescriptionLost | src/Command/ProjectConfiguration.php:45-57 | storing a bundle completes exactly when it has a description, and reading it back as written gives the right-trimmed namespace and the name but no description |
| ProjectConfig.BundleRoundTrip | src/Command/ProjectConfiguration.php:45-57 | storing a bundle and reading it back with the corrected read gives its trimmed namespace, its name and its description; a bundle whose namespace is already trimmed comes back unchanged |
| ProjectConfig.DescriptionRead | src/Command/ProjectConfiguration.php:45-48 | the corrected read returns the stored description string |
| ProjectConfig.SameBundleRead | src/Command/ProjectConfiguration.php:45-48 | the bundle read depends only on the name, namespace and description entries |
| ProjectConfig.SameCategoryRead | src/Command/ProjectConfiguration.php:77-136 | the artifacts read for a category depend only on that category's entry |
| ProjectConfig.BundleWriteKeepsArtifacts | src/Command/ProjectConfiguration.php:38-57 | writing any bundle entry leaves the artifacts of every category unchanged |
| ProjectConfig.BundleKeepsTheRest | src/Command/ProjectConfiguration.php:50-57 | storing a bundle leaves the path and every category's artifacts unchanged, even when it stops half-way |
| ProjectConfig.BundleWriteKeepsPath | src/Command/ProjectConfiguration.php:50-57 | writing a bundle entry other than the path keeps the path and all artifacts |
| ProjectConfig.PathRoundTrip | src/Command/ProjectConfiguration.php:33-43 | after setPath, getPath returns the path written, and the bundle and every category's artifacts read as before |
| ProjectConfig.AddKeepsTheRest | src/Command/ProjectConfiguration.php:138-159 | adding an artifact leaves every other category's artifacts, the path and the bundle as they were |
| ProjectConfig.KeyOfInjective | src/Command/ProjectConfiguration.php:146 | distinct format names are distinct array keys, numeric strings included |
| ProjectConfig.NextIndexNumbered | src/Command/ProjectConfiguration.php:153-155 | a list numbered 0..n-1 takes its next append at index n |
| ProjectConfig.AddToGroups | src/Command/ProjectConfiguration.php:141-156 | adding one more artifact to a category built from a sequence of artifacts gives the category built from the longer sequence |
| ProjectConfig.ReadEntry | src/Command/ProjectConfiguration.php:84-100 | an entry written for an artifact reads back as that artifact, with an empty variant read as '' |
| ProjectConfig.ReadFormat | src/Command/ProjectConfiguration.php:82-128 | the list written under one format reads back as exactly the artifacts of that format, in the order added |
| ProjectConfig.ReadGroups | src/Command/ProjectConfiguration.php:82-133 | a category written format by format reads back format by format, each in the order added |
| ProjectConfig.Building | src/Command/ProjectConfiguration.php:138-159 | adding artifacts one by one to an absent category always succeeds and builds the category grouped by format in first-seen order |
| ProjectConfig.AddThenRead | src/Command/ProjectConfiguration.php:77-159 | artifacts added to an absent category read back as the same artifacts grouped by format in first-seen order, each format's artifacts in the order added |
| ProjectConfig.ProjectConfiguration.constructor | src/Command/ProjectConfiguration.php:14-16 | a new configuration holds nothing (null) until something is written |
| ProjectConfig.ProjectConfiguration.GetPath | src/Command/ProjectConfiguration.php:33-36 | reads the bundle path; a missing path is the TypeError of a null return |
| ProjectConfig.ProjectConfiguration.SetPath | src/Command/ProjectConfiguration.php:38-43 | writes the bundle path and nothing else, or fails leaving the configuration unchanged when a scalar is in the way |
| ProjectConfig.ProjectConfiguration.GetBusinessBundle | src/Command/ProjectConfiguration.php:45-48 | a fresh bundle with the stored name, right-trimmed namespace and description, or the error the read gives |
| ProjectConfig.ProjectConfiguration.SetBusinessBundle | src/Command/ProjectConfiguration.php:50-57 | writes name, namespace and description in that order; a bundle without a description fails in getDescription (string return) after the first two writes |
| ProjectConfig.ProjectConfiguration.GetAllArtifacts | src/Command/ProjectConfiguration.php:62-71 | the artifacts of code, configuration, documentation, project and tests in that order; the first failure stops |
| ProjectConfig.ProjectConfiguration.GetArtifacts | src/Command/ProjectConfiguration.php:77-136 | decodes every YAML shape of a category (type, type => variant, type => variants, index => type => variant(s)), in order, or the first TypeError |
| ProjectConfig.ProjectConfiguration.AddArtifact | src/Command/ProjectConfiguration.php:138-159 | the configuration becomes AddedArtifact of the old one, or stays unchanged with the scalar-as-array error |
| ProjectConfig.DecodeFormat | src/Command/ProjectConfiguration.php:82-132 | the loop over one format's list decodes it as FromFormat does |
| ProjectConfig.DecodeEntry | src/Command/ProjectConfiguration.php:84-127 | one entry decodes as FromEntry does |
| ProjectConfig.DecodeTypes | src/Command/ProjectConfiguration.php:115-125 | the loop over an indexed entry's types decodes each in order, stopping at the first failure |
| ProjectConfig.DecodeVariants | src/Command/ProjectConfiguration.php:109-111 | the loop over a type's variants makes one artifact per variant, stopping at the first failure |
| DatabaseAdapter.AuditTableName | src/Adapter/DatabaseAdapter.php:74-77 | the audit table name is the table name followed by exactly '_logs' |
| DatabaseAdapter.AuditTableIsNotTheTable | src/Adapter/DatabaseAdapter.php:41-77 | an audit table never has the name of the table it audits, for any inflector |
| DatabaseAdapter.EntityColumnEndsWithId | src/Adapter/DatabaseAdapter.php:100-107 | whatever the inflector returns, an entity column name ends in '_id', since the '__' pass cannot eat into the suffix |
| DatabaseAdapter.CollapsedBeforeId | src/Adapter/DatabaseAdapter.php:103-104 | one '__' to '_' pass over any text followed by '_id' leaves a text that still ends in '_id' |
| DatabaseAdapter.CollapseOfId | src/Adapter/DatabaseAdapter.php:103-104 | an empty tableized name gives '_id', and a name ending in '_' loses the doubled underscore |
| DatabaseAdapter.ColumnNamePlain | src/Adapter/DatabaseAdapter.php:86-93 | a field name without '-', ' ' or '.' whose tableized form has no '__' becomes its tableized form unchanged |
| DatabaseAdapter.SeparatorsAgree | src/Adapter/DatabaseAdapter.php:86-107 | 'field-name', 'field name', 'field.name' and 'field_name' give the same column and entity-column names |
| DatabaseAdapter.RelationTableNameOf | src/Adapter/DatabaseAdapter.php:56-65 | a relation table exists exactly for many-to-many relationships and is named left table, '_', right table; any other type is the RuntimeException |
| DatabaseAdapter.RelationTableName | src/Adapter/DatabaseAdapter.php:56-65 | reads both sides of the side's relationship and names the table as RelationTableNameOf does; a side without a relationship is the call-on-null error |
| RelationalAdapter.ForeignKeyAllowed | src/Adapter/RelationalDatabaseAdapter.php:90-106 | a side maps to a foreign key unless the relationship is many-to-many or it is the left side of a one-to-many |
| RelationalAdapter.ValidForeignKey | src/Adapter/RelationalDatabaseAdapter.php:90-106 | isValidForeignKey fails exactly on a side without a relationship, and otherwise answers ForeignKeyAllowed |
| RelationalAdapter.ForeignKeySides | src/Adapter/RelationalDatabaseAdapter.php:90-106 | in a linked relationship: one-to-many keys only its right side, many-to-many neither side, one-to-one both |
| RelationalAdapter.ForeignColumnName | src/Adapter/RelationalDatabaseAdapter.php:73-83 | a foreign-key column extends the base column name and ends in 'id', appending '_id' only when it did not already; a non-key column is the base name |
| RelationalAdapter.FieldColumnName | src/Adapter/RelationalDatabaseAdapter.php:73-83 | a field without a relation gets the base column name; a related field fails exactly when its side has no relationship, and is otherwise named by ForeignColumnName |
| RelationalAdapter.IdentifierName | src/Adapter/RelationalDatabaseAdapter.php:48-56 | the name chosen is 'id' when free, else camelized entity name + 'Id' when free, never a taken name; none exactly when both are taken |
| RelationalAdapter.AppendField | src/Model/Entity.php:146-151 | adding a field under a new name appends it after the others and changes nothing else of the entity |
| RelationalAdapter.NewIdentifierField | src/Adapter/RelationalDatabaseAdapter.php:58-61 | a fresh field named as given, of the identifier type, described 'DB unique identifier field', mandatory, managed and generated |
| RelationalAdapter.GenerateIdentifierField | src/Adapter/RelationalDatabaseAdapter.php:48-63 | adds exactly one new identifier field under IdentifierName, last; when both names are taken it throws the RuntimeException naming the entity and the second name and adds nothing |
| RelationalAdapter.NewForeignKeyField | src/Adapter/RelationalDatabaseAdapter.php:119-120 | a fresh generated field typed by the foreign entity's name, described 'Foreign relationship field' |
| RelationalAdapter.GenerateForeignKeyField | src/Adapter/RelationalDatabaseAdapter.php:108-124 | succeeds exactly when the foreign entity has an identifier and the camelized foreign name is free; the new field is appended under that name; each refusal is its RuntimeException and leaves the entity unchanged |
| RelationalAdapter.SideEntity | src/Model/RelationshipSide.php:72-75 | getEntity succeeds exactly when the side belongs to an entity rather than a business model |
| RelationalAdapter.IndexOf | src/Adapter/RelationalDatabaseAdapter.php:147-155 | an index is named by the field's column name + '_idx', over that one field with the description given; it fails exactly when the column name does |
| RelationalAdapter.SearchIndexesMeans | src/Adapter/RelationalDatabaseAdapter.php:135-138 | the search indexes exist exactly when every searchable field has a column name, and the k-th is the '_idx' index of the k-th field described 'To optimize search queries' |
| RelationalAdapter.ForeignIndex | src/Adapter/RelationalDatabaseAdapter.php:139-142 | a relation yields an index exactly when its side holds a valid foreign key, named after the side's field and described by the remote entity's name + ' foreign key'; a side without a field or remote entity is an error |
| RelationalAdapter.ForeignIndexes | src/Adapter/RelationalDatabaseAdapter.php:139-143 | the foreign indexes exist exactly when every relation's index does, at most one per relation |
| RelationalAdapter.ForeignIndexesFromForeignKeys | src/Adapter/RelationalDatabaseAdapter.php:139-143 | every foreign index comes from a relation whose side is a valid foreign key |
| RelationalAdapter.CreateIndex | src/Adapter/RelationalDatabaseAdapter.php:147-155 | builds a fresh Index realising IndexOf, or fails with its error |
| RelationalAdapter.CreateSearchIndexes | src/Adapter/RelationalDatabaseAdapter.php:135-138 | the loop builds fresh indexes realising SearchIndexes one for one, or stops with the first field's error |
| RelationalAdapter.CreateForeignIndexes | src/Adapter/RelationalDatabaseAdapter.php:139-143 | the loop builds fresh indexes realising ForeignIndexes one for one, or stops with the first relation's error |
| RelationalAdapter.GetIndexes | src/Adapter/RelationalDatabaseAdapter.php:131-145 | the search indexes of the searchable fields followed by the foreign-key indexes of the relations, all fresh; the first error stops it |
| RelationalAdapter.NonListFieldsExactly | src/Adapter/RelationalDatabaseAdapter.php:163-174 | a field is stored in the table exactly when it is one of the entity's fields and not a list |
| RelationalAdapter.GetDatabaseFields | src/Adapter/RelationalDatabaseAdapter.php:163-174 | the loop returns the entity's non-list fields in order |
| RelationalAdapter.AuditedFields | src/Adapter/RelationalDatabaseAdapter.php:182-211 | the audited fields are fields of the entity that pass the audit, no more of them than the entity has |
| RelationalAdapter.AuditedFieldsExactly | src/Adapter/RelationalDatabaseAdapter.php:182-211 | a field is audited exactly when it is not generated (unless it is the identifier), not a list, not a created or updated timestamp, and not the identifier when the identifier is excluded |
| RelationalAdapter.AuditedAreStored | src/Adapter/RelationalDatabaseAdapter.php:163-211 | every audited field is also a stored (non-list) field |
| RelationalAdapter.GetAuditedFields | src/Adapter/RelationalDatabaseAdapter.php:182-211 | the loop returns the audited fields of the entity in order, the identifier being the entity's first identifier field |
| RelationalFields.IdentifyEntity | src/Adapter/RelationalDatabaseAdapter.php:27-31 | an entity with an identifier is left alone; one without gains exactly the generated identifier, or the pass throws IdentifierTaken; afterwards an identifier the helper recognises is present |
| RelationalFields.AddMissingIdentifiers | src/Adapter/RelationalDatabaseAdapter.php:27-31 | the first loop only appends unrelated fields; when it completes, every entity has an identifier; when it throws, some entity had both identifier names taken |
| RelationalFields.NeedsForeignKey | src/Adapter/RelationalDatabaseAdapter.php:36-39 | a foreign key is needed exactly for a one-to-many relation whose remote side has no field; a missing relationship or remote side is the call-on-null error |
| RelationalFields.LinkForeignKey | src/Adapter/RelationalDatabaseAdapter.php:36-42 | when needed, a foreign key to this entity is generated on the remote side's entity and becomes the remote side's field; otherwise, or on error, nothing changes |
| RelationalFields.ResolvedMeansNoForeignKey | src/Adapter/RelationalDatabaseAdapter.php:36-42 | a relation is resolved exactly when the pass would leave it alone without error |
| RelationalFields.LinkEntityRelations | src/Adapter/RelationalDatabaseAdapter.php:35-44 | after one entity's fields are handled, every relation it had is resolved, and entities only gain fields |
| RelationalFields.AddMissingForeignKeys | src/Adapter/RelationalDatabaseAdapter.php:34-45 | when the second loop completes, every relation the entities had beforehand is resolved; sides keep their relationship and any field they had |
| RelationalFields.IdentifierKept | src/Adapter/RelationalDatabaseAdapter.php:27-45 | appending fields never changes which field is an entity's identifier |
| RelationalFields.GenerateRelationalFields | src/Adapter/RelationalDatabaseAdapter.php:24-46 | on completion every entity of the package has an identifier and every relation it had needs no further foreign key; entities only gain fields and keep every other property |
| LanguageTwig.GetName | src/Twig/LanguageTwigExtension.php:901-934 | the name of each kind of object (field, model, data, bundle, data bundle, dataset, anything with getName), '' for null, any other scalar as it is, an error for objects without a name |
| LanguageTwig.GetNameIdempotent | src/Twig/LanguageTwigExtension.php:901-934 | naming a name gives the name back; the only null name is that of a Data without a name |
| LanguageTwig.GetNameGivesString | src/Twig/LanguageTwigExtension.php:901-934 | every named object kind gives a string |
| LanguageTwig.Plural | src/Twig/LanguageTwigExtension.php:470-478 | the plural of a string name; anything else passes through as its name |
| LanguageTwig.Inflected | src/Twig/LanguageTwigExtension.php:488-517 | singular, camel and class filters inflect the name, failing exactly when the object has no string name |
| LanguageTwig.Words | src/Twig/LanguageTwigExtension.php:501-504 | each underscore becomes a space and every other character is kept in place; a name that is not text is a fatal error |
| LanguageTwig.Underscore | src/Twig/LanguageTwigExtension.php:527-538 | a string name becomes its database column name; anything else passes through |
| LanguageTwig.Constant | src/Twig/LanguageTwigExtension.php:561-564 | each character of the name is upper-cased and a space or dash becomes an underscore, so no space, dash or lower-case letter is left; a name strtoupper cannot take (an array, an object) gives '' |
| LanguageTwig.Variable | src/Twig/LanguageTwigExtension.php:574-577 | the camelized name, failing exactly when the name is not text |
| LanguageTwig.PathSource | src/Twig/LanguageTwigExtension.php:600-643 | the text a path is made from: a bundle's namespace or a string, otherwise nothing |
| LanguageTwig.Path | src/Twig/LanguageTwigExtension.php:600-615 | backslashes, dots and spaces become slashes, every other character is kept; empty text gives '' |
| LanguageTwig.LastPath | src/Twig/LanguageTwigExtension.php:625-643 | the last segment never holds a dot, and empty text gives '' |
| LanguageTwig.LastPathMeans | src/Twig/LanguageTwigExtension.php:625-643 | the result is exactly the text after the last backslash, slash or space |
| LanguageTwig.PathThenLastPath | src/Twig/LanguageTwigExtension.php:600-643 | the last segment of a path is the last segment of the text cut at any separator either filter knows |
| LanguageTwig.LastPathOfPath | src/Twig/LanguageTwigExtension.php:600-643 | the last segment of the path of a text is the text after its last separator |
| LanguageTwig.AccessorName | src/Twig/LanguageTwigExtension.php:648-726 | getter 'get'+Class+'()', setter 'set'+Class, adder, remover and container the singular with 'add', 'remove', 'contains'; an empty or non-string name passes through |
| LanguageTwig.GetterSetterAgree | src/Twig/LanguageTwigExtension.php:648-675 | a getter and a setter of one name name the same property |
| LanguageTwig.YesNo | src/Twig/LanguageTwigExtension.php:868-892 | booleans and integers by truth, 'yes'/'true' and 'no'/'false' in any case, anything else 'N/A' |
| LanguageTwig.YesNoIgnoresCase | src/Twig/LanguageTwigExtension.php:868-892 | 'TRUE' is yes, 'No' is no, 'maybe' is N/A |
| LanguageTwig.ScalarName | src/Twig/LanguageTwigExtension.php:734-785 | each type family names its type through the table; otherwise a model of the package is named by its type and anything else is 'string' |
| LanguageTwig.ListType | src/Twig/LanguageTwigExtension.php:795-837 | the element type of a Field or Data; 'string' for anything else |
| LanguageTwig.Type | src/Twig/LanguageTwigExtension.php:734-785 | 'list of' the element type for a list, with the optional mark when neither the call nor the field is mandatory; 'string' for anything but a Field or Data |
| LanguageTwig.EventDataOptional | src/Twig/LanguageTwigExtension.php:734-785 | an optional event Data on an optional field is typed optional, and with mandatory set it is typed as its field |
| LanguageTwig.TypeTest | src/Twig/LanguageTwigExtension.php:135-286 | the double, float, price, long, integer, boolean, string and uuid tests hold exactly for a Field or Data whose type passes the FieldHelper check |
| LanguageTwig.ScalarTest | src/Twig/LanguageTwigExtension.php:97-126 | a Field or Data is scalar exactly when its type belongs to a native family |
| LanguageTwig.EntityTest | src/Twig/LanguageTwigExtension.php:295-306 | a Field or Data is an entity exactly when its type names a model of the bundle |
| LanguageTwig.SideTest | src/Twig/LanguageTwigExtension.php:316-460 | one-to-one and many-to-many hold on the relationship type, one-to-many on the left side and many-to-one on the right side of a one-to-many; a side without relationship is an error |
| LanguageTwig.OneToManyExcludesManyToOne | src/Twig/LanguageTwigExtension.php:354-422 | no side is both one-to-many and many-to-one |
| LanguageTwig.AnyRelationMeans | src/Twig/LanguageTwigExtension.php:316-460 | a model passes a relation test exactly when one of its relations does, when none fails |
| LanguageTwig.RunRelationTest | src/Twig/LanguageTwigExtension.php:316-460 | the loop answers the relation tests as RelationTest does: the side itself, a field's relation, or the first passing relation of a model |
| LanguageTwig.ParameterCases | src/Twig/LanguageTwigExtension.php:852-857 | a parameter fails with the type's error first, then the name's; otherwise it is the type, a space and the name |
| LanguageTwig.Parameters | src/Twig/LanguageTwigExtension.php:843-861 | one parameter per item in order, each its type and its variable name |
| LanguageTwig.DataParameterTypedByField | src/Twig/LanguageTwigExtension.php:843-861 | a Data on its own is typed by its field, but inside a list it is typed as the Data itself; both are named by the Data |
| LanguageTwig.ParameterNotEmpty | src/Twig/LanguageTwigExtension.php:843-861 | a parameter is never empty |
| LanguageTwig.RunParameterList | src/Twig/LanguageTwigExtension.php:843-861 | the parameter text of one item or a list, as ParameterList |
| LanguageTwig.RunJoinedParameters | src/Twig/LanguageTwigExtension.php:848-858 | the loop joins the parameters with ', ', or stops at the first failure |
| PhpTwig.ReturnedName | src/Twig/PhpTwigExtension.php:82-105 | a string return type passes a string name and refuses a null or missing one with the TypeError |
| PhpTwig.Variable | src/Twig/PhpTwigExtension.php:82-90 | '$' and the camelized name for a non-empty name; an empty name is returned as it is |
| PhpTwig.Member | src/Twig/PhpTwigExtension.php:97-105 | '$this->' and the camelized name for a non-empty name; an empty name is returned as it is |
| PhpTwig.MemberIsThisVariable | src/Twig/PhpTwigExtension.php:82-105 | the member of a name is '$this->' followed by its variable without the '$' |
| PhpTwig.NamespaceText | src/Twig/PhpTwigExtension.php:113-136 | the namespace text, followed by '\' and the subpackage given, or else the context's subpackage when set |
| PhpTwig.Namespace | src/Twig/PhpTwigExtension.php:113-136 | the namespace has the length of its text with every slash, dot and space turned into a backslash; empty text gives '' |
| PhpTwig.NamespaceMatchesPath | src/Twig/PhpTwigExtension.php:113-136 | without a subpackage, a namespace with its backslashes as slashes is the path filter's result |
| PhpTwig.ListType | src/Twig/PhpTwigExtension.php:199-241 | the PHP type of each family for a Field or Data's elements, 'string' for an unknown type or anything else |
| PhpTwig.Type | src/Twig/PhpTwigExtension.php:142-193 | 'array' for a list, the PHP type otherwise, prefixed with '?' when neither the call nor the field is mandatory; 'string' for anything else |
| PhpTwig.Hint | src/Twig/PhpTwigExtension.php:247-300 | the PHP type with '[]' for a list, followed by '|null' when optional; 'string' for anything else |
| PhpTwig.TypeAndHintAgree | src/Twig/PhpTwigExtension.php:142-300 | an optional scalar's type is '?' + its hint without '|null', a mandatory scalar's type is its hint, and a list is typed 'array' with the hint its element type + '[]' |
| PhpTwig.ParameterOfField | src/Twig/LanguageTwigExtension.php:843-861 | a field's PHP parameter is its PHP type, a space and '$' with the camelized name |
| PhpTwig.DateTimeUsed | src/Twig/PhpTwigExtension.php:48-75 | a model or event uses DateTime exactly when one of its fields is a date, time or date-time; any other object is the InvalidArgumentException |
| PhpTwig.RunDateTimeUsed | src/Twig/PhpTwigExtension.php:48-75 | the loop answers as DateTimeUsed |
| PhpTwig.AnyTemporal | src/Twig/PhpTwigExtension.php:56-72 | the loop finds a temporal field exactly when there is one |
| JavaTwig.Member | src/Twig/JavaTwigExtension.php:36-44 | a non-empty string name becomes 'this.' and its singular camel-case form; any other name is returned unchanged |
| JavaTwig.Package | src/Twig/JavaTwigExtension.php:53-68 | a package name is empty exactly when the namespace or string is, keeps its length, and holds no upper-case letter, backslash, slash or space |
| JavaTwig.PackageMatchesPath | src/Twig/JavaTwigExtension.php:53-68 | a package name with its dots turned into slashes is the lower-cased path of the same namespace |
| JavaTwig.JavaScalar | src/Twig/JavaTwigExtension.php:87-117 | a field of a native family takes that family's Java name; a model or dataset of the package keeps its type name; anything else is Object |
| JavaTwig.ListType | src/Twig/JavaTwigExtension.php:134-178 | the boxed Java name of a field's element type, or Object for anything that is not a field |
| JavaTwig.Type | src/Twig/JavaTwigExtension.php:75-126 | as written: the Java type of a field, wrapped in List<> for a list; anything that is not a field is an error |
| JavaTwig.IntListIsPrimitive | src/Twig/JavaTwigExtension.php:119-123 | as written, a list of int is typed List<int>, which Java rejects |
| JavaTwig.PrimitivesClassified | src/Twig/JavaTwigExtension.php:89-106 | boolean, int, long, float and double fall in the families the type table maps to Java primitives |
| JavaTwig.CorrectedType | src/Twig/JavaTwigExtension.php:75-178 | corrected: a list field is typed List<> of its boxed element type; everything else is typed as written |
| JavaTwig.CorrectedListIsBoxed | src/Twig/JavaTwigExtension.php:134-178 | the element type in a corrected list type is never a Java primitive |
| JavaTwig.BoxedScalarIsNotPrimitive | src/Twig/JavaTwigExtension.php:148-175 | no boxed Java name of any field is a Java primitive |
| SqlTwig.Database | src/Twig/SqlTwigExtension.php:84-87 | a bundle's database name; any other argument is a TypeError |
| SqlTwig.User | src/Twig/SqlTwigExtension.php:173-180 | only a bundle has a user name; any other argument is a TypeError |
| SqlTwig.UserIsColumnName | src/Twig/SqlTwigExtension.php:173-180 | a bundle's user name is its name under the column-name rules |
| SqlTwig.RelationTable | src/Twig/SqlTwigExtension.php:98-99 | a side names the relation table of its relationship, or fails without one |
| SqlTwig.Table | src/Twig/SqlTwigExtension.php:94-104 | a model or dataset names its table, a side its relation table; anything else is the RuntimeException |
| SqlTwig.TableNamedExactly | src/Twig/SqlTwigExtension.php:94-104 | a table name exists exactly for a model, a dataset or a side of a many-to-many relationship; another side gets the many-to-many RuntimeException |
| SqlTwig.AuditTable | src/Twig/SqlTwigExtension.php:109-112 | only a model has an audit table, named by the adapter's audit rule |
| SqlTwig.AuditTableBesideTable | src/Twig/SqlTwigExtension.php:94-112 | a model's audit table is its table + '_logs' and never the table itself |
| SqlTwig.FieldColumn | src/Twig/SqlTwigExtension.php:121-122 | a plain field's column is its column name; a related field's is the foreign column name when its side holds a foreign key, failing exactly when the side has no relationship |
| SqlTwig.ColumnRejected | src/Twig/SqlTwigExtension.php:140 | the intended message for an unnameable value is the fixed text followed by 'null' or the value's class |
| SqlTwig.ColumnRejectedAsWritten | src/Twig/SqlTwigExtension.php:140 | as written, the message is the value's class name alone, or 'null' for the one string equal to the fixed text |
| SqlTwig.ColumnMessageLosesText | src/Twig/SqlTwigExtension.php:140 | as written, the message for any object is its bare class name, never the intended message |
| SqlTwig.ColumnCases | src/Twig/SqlTwigExtension.php:119-141 | a field gives its column, a model its entity column, an index or an array its parts' columns joined with ', ' or the first part's error; anything else is the RuntimeException with the corrected ColumnRejected text |
| SqlTwig.FieldColumns | src/Twig/SqlTwigExtension.php:125-129 | an index's columns, one per field in order, or the error of a field that has none |
| SqlTwig.QuotedColumnsAt | src/Twig/SqlTwigExtension.php:132-137 | each item of an array becomes its own column in backquotes, in order |
| SqlTwig.ForeignKeyColumnEndsWithId | src/Twig/SqlTwigExtension.php:119-122 | the column of a field whose side holds a foreign key ends in 'id' |
| SqlTwig.RunColumn | src/Twig/SqlTwigExtension.php:119-141 | the column filter of a field, model, index or array; anything else is refused with the corrected ColumnRejected text (see Findings) |
| SqlTwig.RunItemColumns | src/Twig/SqlTwigExtension.php:132-137 | the loop joins the backquoted columns of an array with ', ' |
| SqlTwig.RunIndexColumns | src/Twig/SqlTwigExtension.php:125-130 | the loop joins the columns of an index's fields with ', ' |
| SqlTwig.ForeignKeyTest | src/Twig/SqlTwigExtension.php:285-288 | a side needs a foreign key exactly when the relationship is not many-to-many and the side is not the left of a one-to-many |
| SqlTwig.ForeignKey | src/Twig/SqlTwigExtension.php:148-168 | a source that is neither a side nor a model is refused; a model without a source field and a destination is refused; a side that holds no foreign key is refused; every key starts with 'fk_' |
| SqlTwig.ForeignKeyOfSide | src/Twig/SqlTwigExtension.php:150-157 | a side's foreign key exists exactly when it holds one, and is 'fk_', the two tables and the side's column joined by '_'; otherwise the exception |
| SqlTwig.ForeignKeyOfModel | src/Twig/SqlTwigExtension.php:158-162 | a model's foreign key needs both a source field and a destination, and is 'fk_', the model's table, the destination's table and the field's column joined by '_' |
| SqlTwig.Quoted | src/Twig/SqlTwigExtension.php:248-253 | a string value is wrapped in one kind of quote on both ends |
| SqlTwig.QuotedDelimiterFree | src/Twig/SqlTwigExtension.php:248-253 | single quotes are used exactly when the value holds none, so the delimiter appears inside only when the value holds both kinds |
| SqlTwig.DateLiteral | src/Twig/SqlTwigExtension.php:215-232 | a date, time or date-time value that is not a date object is its text in single quotes |
| SqlTwig.FieldNamed | src/Model/DataSet.php:109-116 | the dataset field under a key is one of its fields with that name; none exactly when no field has it |
| SqlTwig.ElementPart | src/Twig/SqlTwigExtension.php:194-196 | an element value is rendered by the field of its name, and an unknown name is refused |
| SqlTwig.ElementParts | src/Twig/SqlTwigExtension.php:194-197 | one rendered value per element value, in order |
| SqlTwig.ElementValue | src/Twig/SqlTwigExtension.php:192-200 | an element without values renders as ''; one with values but no dataset is the call-on-null error |
| SqlTwig.Literal | src/Twig/SqlTwigExtension.php:188-280 | a field renders the value by its type, a data by its field's type, an element value by value; anything else is the InvalidArgumentException naming its class |
| SqlTwig.Render | src/Twig/SqlTwigExtension.php:207-267 | integer, long, float and double values are kept as they are; a price is kept when numeric and is otherwise the fatal call to the undefined PriceHelper::asFloat; a boolean is TRUE or FALSE; a string is quoted; a model type is refused |
| SqlTwig.FieldValue | src/Twig/SqlTwigExtension.php:207-275 | a value that cannot be rendered gives the rendering's error; a list field's literal is the rendered value between square brackets |
| SqlTwig.BooleanLiteral | src/Twig/SqlTwigExtension.php:208-214 | a boolean renders as TRUE exactly when the value filters to true, FALSE otherwise |
| SqlTwig.StringLiteral | src/Twig/SqlTwigExtension.php:248-253 | a string renders quoted |
| SqlTwig.NumberLiteral | src/Twig/SqlTwigExtension.php:233-247 | integer, long, float and double values render as their text |
| SqlTwig.ListLiteral | src/Twig/SqlTwigExtension.php:272-274 | a list field renders its value in square brackets |
| SqlTwig.DatasetLiteral | src/Twig/SqlTwigExtension.php:259-266 | a dataset-typed value renders as the identifier value of the element it names |
| SqlTwig.RejectedLiterals | src/Twig/SqlTwigExtension.php:254-269 | model-typed values, unknown types and values naming no element are refused with their messages |
| SqlTwig.RunElementValue | src/Twig/SqlTwigExtension.php:192-200 | the loop renders an element's values as ElementValue |
| SqlTwig.StoredFields | src/Adapter/RelationalDatabaseAdapter.php:163-174 | a field is stored exactly when it is one of the fields and not a list |
| SqlTwig.DatabaseFields | src/Twig/SqlTwigExtension.php:298-307 | a model's stored fields, a dataset's fields in order, nothing for anything else |
| MySqlTwig.IndexAttributes | src/Twig/MySqlTwigExtension.php:38-48 | an index has attributes exactly when its description is non-empty |
| MySqlTwig.IndexCommentRoundTrip | src/Twig/MySqlTwigExtension.php:43-45 | the index comment is COMMENT and the description in single quotes, whose doubled quotes undo to the description |
| MySqlTwig.DefaultClause | src/Twig/MySqlTwigExtension.php:65-79 | a default clause is written unless the field is mandatory, not a created or updated timestamp and has an empty default |
| MySqlTwig.TimestampDefaultWins | src/Twig/MySqlTwigExtension.php:67-70 | a created or updated timestamp ignores the field's default; a created one defaults to CURRENT_TIMESTAMP |
| MySqlTwig.ZeroDefaultIsNoDefault | src/Twig/MySqlTwigExtension.php:71-79 | a default of '0' counts as empty, as PHP's empty() says, so it writes what no default writes |
| MySqlTwig.Collation | src/Twig/MySqlTwigExtension.php:94-102 | an ASCII string collates as ascii_general_ci; the collation is either that or nothing |
| MySqlTwig.ForeignKeyCollatedAsKey | src/Twig/MySqlTwigExtension.php:97-101 | a foreign-key column collates as the remote model's identifier does |
| MySqlTwig.RunFieldAttributes | src/Twig/MySqlTwigExtension.php:54-107 | the field attribute clauses, as FieldAttributes |
| MySqlTwig.AppendDefault | src/Twig/MySqlTwigExtension.php:65-79 | appends the default clause to the attributes so far |
| MySqlTwig.AttributesOpenWithNullability | src/Twig/MySqlTwigExtension.php:54-107 | the attributes of a mandatory field start with NOT NULL, those of an optional field with NULL and not NOT NULL |
| MySqlTwig.Attributes | src/Twig/MySqlTwigExtension.php:28-36 | a field's or an index's attributes; anything else is the RuntimeException |
| MySqlTwig.FieldType | src/Twig/MySqlTwigExtension.php:114-162 | a list is refused; each native family maps to its MySQL type |
| MySqlTwig.Type | src/Twig/MySqlTwigExtension.php:109-168 | only a Field has a MySQL type; anything else is the RuntimeException |
| MySqlTwig.NativeTypesMapped | src/Twig/MySqlTwigExtension.php:118-156 | every native non-list type maps to a non-empty MySQL type |
| MySqlTwig.ForeignKeyTypedAsKey | src/Twig/MySqlTwigExtension.php:157-159 | a foreign-key column has the type of the remote model's identifier |
| MySqlTwig.UnsupportedTypeNamed | src/Twig/MySqlTwigExtension.php:160-161 | an unknown type without a relation is refused with a message naming the type |
| MySqlTwig.IndexPart | src/Twig/MySqlTwigExtension.php:176-194 | an index column is the field's column, limited to its first 20 characters for strings other than phone, uuid and text |
| MySqlTwig.IndexParts | src/Twig/MySqlTwigExtension.php:175-195 | one index column per field, in order |
| MySqlTwig.ColumnCases | src/Twig/MySqlTwigExtension.php:170-201 | an index gives its prefixed columns joined with ',', an array its items' columns under these rules joined with ', ', each or the first error; anything else is the generic SQL column |
| MySqlTwig.ColumnAgreesOutsideIndexes | src/Twig/MySqlTwigExtension.php:198-200 | for anything but an index or an array, the MySQL column is the generic SQL column |
| MySqlTwig.ItemsAgreeWithoutIndexes | src/Twig/MySqlTwigExtension.php:198-200 | an array without indexes gets the same columns as under the generic SQL filter |
| MySqlTwig.RunColumn | src/Twig/MySqlTwigExtension.php:170-201 | the column filter, as Column |
| MySqlTwig.RunIndexColumns | src/Twig/MySqlTwigExtension.php:172-197 | the loop joins the index columns with ',' |
| MySqlTwig.RunItemColumns | src/Twig/SqlTwigExtension.php:132-137 | the loop joins the backquoted columns of an array with ', ', each under the MySQL rules |
| DoctrineTwig.NeedsCollection | src/Twig/DoctrineOrmTwigExtension.php:71-78 | a relation needs a collection exactly when its side holds no foreign key (many-to-many, or the left of a one-to-many); a side without relationship fails |
| DoctrineTwig.CollectionUsed | src/Twig/DoctrineOrmTwigExtension.php:64-87 | an entity uses a collection when one of its relations needs one, a field when it is a related list; nothing else does |
| DoctrineTwig.CollectionUsedMeans | src/Twig/DoctrineOrmTwigExtension.php:68-79 | with every relationship set, an entity uses a collection exactly when some relation's side holds no foreign key |
| DoctrineTwig.RunCollectionUsed | src/Twig/DoctrineOrmTwigExtension.php:64-87 | the loop with its early exit answers as CollectionUsed |
| DoctrineTwig.ColumnTypeAsWritten | src/Twig/DoctrineOrmTwigExtension.php:131-177 | as written, the decimal price column is never produced, and a field has a column type exactly when one of the family tests holds |
| DoctrineTwig.ColumnTypeSuffix | src/Twig/DoctrineOrmTwigExtension.php:131-177 | what follows a column type is nothing or a length, precision or scale ending in a digit |
| DoctrineTwig.PriceColumnDropped | src/Twig/DoctrineOrmTwigExtension.php:131-177 | as written, a price field gets no column type at all |
| DoctrineTwig.ColumnType | src/Twig/DoctrineOrmTwigExtension.php:131-177 | corrected: a price is a decimal column with precision 9 and scale 2; every other family keeps its written column type |
| DoctrineTwig.ColumnForEveryFamily | src/Twig/DoctrineOrmTwigExtension.php:131-177 | with the correction, a field has a column type exactly when its type belongs to a native family |
| DoctrineTwig.StringColumnLengths | src/Twig/DoctrineOrmTwigExtension.php:156-176 | text is a text column; phone, uuid and every other string a string column of length 15, 36 and 255 |
| DoctrineTwig.NullableIffOptional | src/Twig/DoctrineOrmTwigExtension.php:179-185 | a column annotation ends with ', nullable=true)' exactly when the field is optional |
| DoctrineTwig.RelationAssociationAsWritten | src/Twig/DoctrineOrmTwigExtension.php:189-231 | as written, no association is ever produced: a relation of a known type whose namespace can be computed fails on the Entity's string conversion |
| DoctrineTwig.RelationAnnotationLost | src/Twig/DoctrineOrmTwigExtension.php:194-229 | as written, a one-to-one, one-to-many or many-to-many relation to an entity fails, because getName is not defined for an Entity; the corrected association exists |
| DoctrineTwig.RelationAssociation | src/Twig/DoctrineOrmTwigExtension.php:189-231 | corrected: an association targets the package namespace, a backslash and the remote entity's name |
| DoctrineTwig.OwningSideHoldsForeignKey | src/Twig/DoctrineOrmTwigExtension.php:197-229 | OneToMany and ManyToMany are used exactly on sides without a foreign key; only a unidirectional one-to-one cascades; otherwise the remote field is mapped or inversed, inversedBy on the owning side |
| DoctrineTwig.FieldAnnotationsWith | src/Twig/DoctrineOrmTwigExtension.php:114-234 | the annotations of a field: Id and its generation strategy for an identifier, then the column for a known type, then the relation; they fail exactly when the column name or the relation does |
| DoctrineTwig.FieldAnnotations | src/Twig/DoctrineOrmTwigExtension.php:114-234 | the field annotations with the corrected column type and relation |
| DoctrineTwig.FieldAnnotationsAsWritten | src/Twig/DoctrineOrmTwigExtension.php:114-234 | as written, a field's annotations are only its identifier annotations and its column, never a relation |
| DoctrineTwig.PriceFieldUnannotated | src/Twig/DoctrineOrmTwigExtension.php:114-234 | as written, a plain price field gets no annotation at all |
| DoctrineTwig.PriceFieldIsDecimalColumn | src/Twig/DoctrineOrmTwigExtension.php:145-149 | corrected, a mandatory plain price field gets exactly its decimal column annotation |
| DoctrineTwig.QuotedColumns | src/Twig/DoctrineOrmTwigExtension.php:289-312 | each field's column in double quotes, in order |
| DoctrineTwig.Entry | src/Twig/DoctrineOrmTwigExtension.php:259-273 | a constraint or index entry exists exactly when all its columns do |
| DoctrineTwig.Entries | src/Twig/DoctrineOrmTwigExtension.php:255-261 | one entry per constraint or index, in order |
| DoctrineTwig.Section | src/Twig/DoctrineOrmTwigExtension.php:252-263 | no constraints or indexes add nothing to the table annotation |
| DoctrineTwig.EntityAnnotations | src/Twig/DoctrineOrmTwigExtension.php:241-282 | two annotations: the entity with its repository class, then the table; they fail exactly when a constraint's or index's columns do |
| DoctrineTwig.BareTableAnnotation | src/Twig/DoctrineOrmTwigExtension.php:248-278 | without constraints or indexes the table annotation is the table name alone |
| DoctrineTwig.RunColumns | src/Twig/DoctrineOrmTwigExtension.php:289-312 | the loop joins the quoted columns with ',' or stops with the first error |
| DoctrineTwig.RunSection | src/Twig/DoctrineOrmTwigExtension.php:252-277 | the loop over constraints or indexes builds the section as Section |
| DoctrineTwig.RunEntityAnnotations | src/Twig/DoctrineOrmTwigExtension.php:241-282 | builds the entity annotations as EntityAnnotations |
| DoctrineTwig.Annotations | src/Twig/DoctrineOrmTwigExtension.php:95-106 | an entity gets its entity annotations, a field its field annotations, anything else none |
| DoctrineTwig.Type | src/Twig/DoctrineOrmTwigExtension.php:320-327 | a related list is a Collection; any other field has its PHP type; anything but a field is an error |
| DoctrineTwig.Hint | src/Twig/DoctrineOrmTwigExtension.php:335-343 | a related list is hinted 'Collection|' and its PHP hint; any other field has its PHP hint |
| DoctrineTwig.CollectionTypeIffUsed | src/Twig/DoctrineOrmTwigExtension.php:64-343 | a list field is typed Collection exactly when it uses a collection, and then its hint is 'Collection|' and the PHP hint |
| MarkdownTwig.Link | src/Twig/MarkdownTwigExtension.php:58-63 | a link shows the class name in backticks and points into the overview of its folder |
| MarkdownTwig.LinkAnchorIsLowerCase | src/Twig/MarkdownTwigExtension.php:58-63 | the anchor a link points to is the lower-cased class name and holds no upper-case letter |
| MarkdownTwig.ScalarType | src/Twig/MarkdownTwigExtension.php:52-74 | bool and int are spelled boolean and integer and other native types stay as they are; a model or dataset of the bundle becomes a link to its overview; an unknown type stays as it is; without a bundle a non-native type is a type error |
| MarkdownTwig.FieldType | src/Twig/MarkdownTwigExtension.php:52-78 | a list field is 'List of ' and its element's type; any other field has its element's type; it fails exactly when the element type does |
| MarkdownTwig.Type | src/Twig/MarkdownTwigExtension.php:30-81 | a data bundle is a Structure or a List by its structure; a data item or field has its field type; anything else is an error |
| MarkdownTwig.ListOfElementType | src/Twig/MarkdownTwigExtension.php:75-77 | the type of a list field is 'List of ' and the type of the same field without the list flag, and fails exactly when that one does |
| MarkdownTwig.NativeTypesShownPlain | src/Twig/MarkdownTwigExtension.php:64-74 | a native field's type is a native type name, its own except for bool and int |
| MarkdownTwig.Details | src/Twig/MarkdownTwigExtension.php:83-102 | the details of a data item on a model or dataset field are its class name, otherwise N/A; without a bundle a non-native data item is a type error |
| MarkdownTwig.ModelLink | src/Twig/MarkdownTwigExtension.php:104-128 | a data item links to its model; a non-native field links to the bundle's model of its type or is N/A; without a bundle such a field is an error; anything else is N/A |
| MarkdownTwig.ModelColumnMatchesType | src/Twig/MarkdownTwigExtension.php:30-128 | a plain field shows a model link exactly when its type is a model of the bundle, and then the link is its type |
| MarkdownTwig.Line | src/Twig/MarkdownTwigExtension.php:150-153 | a table line always ends with a bar |
| MarkdownTwig.LineColumns | src/Twig/MarkdownTwigExtension.php:134-153 | a line of cells without bars has one more bar than cells |
| MarkdownTwig.Dashes | src/Twig/MarkdownTwigExtension.php:141 | a rule of n dashes has length n and holds only dashes |
| MarkdownTwig.NameCells | src/Twig/MarkdownTwigExtension.php:143-149 | one header cell per field that is not the identifier, never more than the fields |
| MarkdownTwig.RuleCells | src/Twig/MarkdownTwigExtension.php:143-149 | one rule per header cell, as many dashes as the name has characters |
| MarkdownTwig.IdentifierRule | src/Twig/MarkdownTwigExtension.php:136-141 | the identifier's rule has at least three dashes and is never shorter than its name |
| MarkdownTwig.Header | src/Twig/MarkdownTwigExtension.php:130-158 | a data set's header exists exactly when it has an identifier |
| MarkdownTwig.HeaderFilter | src/Twig/MarkdownTwigExtension.php:130-158 | a data set gets its header; anything else two empty lines |
| MarkdownTwig.HeaderLinesAgree | src/Twig/MarkdownTwigExtension.php:130-158 | with names free of bars, both header lines have one bar per column plus two, so the rule fits the names |
| MarkdownTwig.HeaderEnd | src/Twig/MarkdownTwigExtension.php:150-157 | a data set's header is its open name line and its open rule line, each closed with a bar, joined by the line break |
| MarkdownTwig.RunHeader | src/Twig/MarkdownTwigExtension.php:130-158 | the loop builds the header as HeaderFilter |
| MarkdownTwig.RunHeaderCells | src/Twig/MarkdownTwigExtension.php:143-149 | the field loop appends the name cells and the rule cells to the two lines |
| MarkdownTwig.ValueCell | src/Twig/MarkdownTwigExtension.php:169-175 | a boolean field's value is shown Yes or No; any other value as a string, failing for a value that has none |
| MarkdownTwig.ValueCells | src/Twig/MarkdownTwigExtension.php:167-177 | one value cell per header cell |
| MarkdownTwig.Row | src/Twig/MarkdownTwigExtension.php:160-183 | an element of no data set or of a data set without an identifier has no row, since it has no identifier value |
| MarkdownTwig.RowFilter | src/Twig/MarkdownTwigExtension.php:160-183 | an element gets its row; anything else an empty row |
| MarkdownTwig.RowFitsHeader | src/Twig/MarkdownTwigExtension.php:130-183 | with values free of bars, a row has as many bars as each header line |
| MarkdownTwig.RowCells | src/Twig/MarkdownTwigExtension.php:164-181 | a row that exists is the bold identifier value and the value cells, closed with a bar |
| MarkdownTwig.ValueCellsFailAt | src/Twig/MarkdownTwigExtension.php:167-177 | the first value that cannot be shown is the error of the whole row |
| MarkdownTwig.RunRow | src/Twig/MarkdownTwigExtension.php:160-183 | the loop builds the row as RowFilter |
| MarkdownTwig.RowFails | src/Twig/MarkdownTwigExtension.php:160-183 | a row fails with the error of its identifier value or of its value cells |
| OrderedMap.Get | src/Model/BusinessBundle.php:132-137 | a key's value is found exactly when the key is set, and is the value stored with it |
| OrderedMap.Put | src/Model/Entity.php:146-151 | after an assignment the key holds the new value and every other key its old one; a known key keeps its place and a new key goes last |
| OrderedMap.PutCount | src/Model/Entity.php:146-151 | an assignment grows the array by one exactly when the key is new |
| OrderedMap.PutInPlace | src/Model/Entity.php:146-151 | assigning a key that is already set replaces its value in its own position |
| OrderedMap.PutKeepsDistinct | src/Model/Entity.php:146-151 | an assignment never sets the same key twice |
| OrderedMap.PutEach | src/Model/Constraint.php:84-89 | assigning entries one after another gives the entries' combined assignment |
| OrderedMap.PutAllKeys | src/Model/Constraint.php:84-89 | after a run of assignments the keys are the old keys and those assigned |
| OrderedMap.PutAllLastWins | src/Model/Constraint.php:84-89 | after a run of assignments a key holds the value of its last assignment |
| OrderedMap.Remove | src/Model/Data/DataBundle.php:169-178 | after an unset the key is gone and every other key keeps its value |
| OrderedMap.RemoveKeys | src/Model/Data/DataBundle.php:169-178 | an unset removes exactly that key from the order of the keys |
| OrderedMap.PutIn | src/Model/Data/DataBundle.php:141-152 | an assignment two levels deep sets that entry only, adding the outer key last when it is new |
| OrderedMap.UnsetIn | src/Model/Data/DataBundle.php:169-178 | an unset two levels deep removes that entry only and keeps every outer key |
| OrderedMap.PutInThenUnsetIn | src/Model/Data/DataBundle.php:141-178 | adding an absent entry and removing it again leaves every entry as it was, though the outer key stays |
| OrderedMap.DedupEach | src/Model/BusinessBundle.php:207-218 | the loop keeps the first occurrence of each value |
| OrderedMap.DedupExactly | src/Model/BusinessBundle.php:207-218 | the values kept are exactly the values given, each once |
| PhpStrings.Lower | src/Twig/JavaTwigExtension.php:65 | strtolower changes every upper-case ASCII letter and nothing else, keeping the length |
| PhpStrings.LowerIdempotent | src/Twig/JavaTwigExtension.php:65 | lower-casing twice is lower-casing once |
| PhpStrings.MapChars | src/Twig/JavaTwigExtension.php:65 | replacing a set of characters with one character keeps the length and changes only those characters |
| PhpStrings.CollapseDoubleUnderscore | src/Adapter/DatabaseAdapter.php:29 | replacing each double underscore with one never makes a name longer |
| PhpStrings.CollapseWithoutDouble | src/Adapter/DatabaseAdapter.php:29 | a name without a double underscore is left as it is |
| PhpStrings.CollapseExamples | src/Adapter/DatabaseAdapter.php:29 | the replacement works left to right without rescanning, so three underscores become two |
| PhpStrings.RTrim | src/Model/BusinessBundle.php:67 | rtrim keeps a prefix that ends in none of the characters and drops only those characters |
| PhpStrings.RTrimIdempotent | src/Model/BusinessBundle.php:67 | trimming twice is trimming once |
| PhpStrings.Repeat | src/Twig/MarkdownTwigExtension.php:148 | str_repeat gives n copies of the text |
| PhpValues.FilterBoolString | src/Helper/FieldHelper.php:330 | a string is true when it trims and lower-cases to 1, true, on or yes, false when to 0, false, off, no or nothing, and neither otherwise |
| PhpValues.StringOf | src/Twig/MarkdownTwigExtension.php:164-175 | converting a value to a string fails exactly for a date-time object |
| PhpValues.KeyOf | src/Model/Constraint.php:86 | a string key stays a string unless it is a canonical integer within the platform integer range |
| PhpValues.IntegerString | src/Builder/ArtifactBuilderFactory.php:41-42 | a string offset is read only from an integer numeric string (leading blanks, a sign and leading zeros allowed, nothing after the digits), whose value lies in the 64-bit range |
| PhpValues.IntegerStringIsNumeric | src/Builder/ArtifactBuilderFactory.php:41-42 | an integer numeric string is numeric, and intval reads the same integer from it |
| PhpValues.IntKeyIsIntegerString | src/Builder/ArtifactBuilderFactory.php:41-42 | every string PHP stores as an integer array key is an integer numeric string of the same value |
| PhpValues.LeadingZeroIsInteger | src/Builder/ArtifactBuilderFactory.php:41-42 | '01' is the integer 1 as an offset, while as an array key it stays the string '01' |
| PhpValues.LeadingBlankIsInteger | src/Builder/ArtifactBuilderFactory.php:41-42 | ' -2' is the integer -2 as an offset |
| PhpValues.TrailingBlankIsNoInteger | src/Builder/ArtifactBuilderFactory.php:41-42 | '1 ' is no integer under PHP 7 |
| PhpValues.KeyNameOfKey | src/Model/Constraint.php:86 | reading a key back as a string gives the string the key was made from |
| PhpValues.IntValOfIntString | src/Helper/FieldHelper.php:338 | intval reads back every integer written out in decimal |
| PhpValues.DigitsNumeric | src/Helper/FieldHelper.php:345 | a run of digits is numeric |
| PhpValues.TrailingBlankNotNumeric | src/Helper/FieldHelper.php:345 | a run of digits followed by a blank is not numeric, following PHP 7 |
| TwigValues.Subject | src/Twig/JavaTwigExtension.php:79-88 | a Data gives its field and a field itself; an EventData makes its field mandatory when it is; the caller's mandatory flag is never lost |
| TwigValues.Relations | src/Model/Entity.php:221-232 | the relations are those of the fields that have one, never more than the fields |
| TwigValues.CallError | src/Twig/JavaTwigExtension.php:119 | calling a method on a value that does not have it is a fatal error |

## Left out

- Console entry points, YAML loading and saving (`ProjectConfiguration::load/save`), template rendering and file writes (`TemplateRenderer::loadTemplate/renderTemplate/renderToFile`), and the `build` methods of the artifact builders: they are I/O. Only the pure parts of these files are modelled: the artifact-list encoding, `getTemplateFilename` and the factory lookup.
- Twig wiring (`getFilters`, `getTests`, `getFunctions`) and the extension instances the registry creates: the model keeps only the registry's contents.
- The Doctrine Inflector is a parameter (`Inflection.Inflector`) with no body. Properties that need a particular inflection are stated for any inflector.
- `Field::isIdentifier`, `FieldHelper::isIdentifier`, `FieldHelper::isEntity` and `FieldHelper::isEntityCreatedTimestamp`/`isEntityUpdatedTimestamp` are not declared in the source tree. They become a field's abstract identifier flag or predicate parameters, with no invented body.
- `Data::setName` and `Data::ATTRIBUTES` are not declared. The name is an abstract field of a Data that `DataNames` writes, and the attribute details are a parameter.
- `Event::getDataBundles` is not declared: `EventHelpers` takes the event's bundles as a parameter.
- `parent::addData` of the fetch bundle is not declared: `FetchDataBundle::addData`'s checks are modelled, and what passes them leaves the bundle as it is. `ExistingDataBundle` and `InputDataBundle` only delegate to it, so they have no behaviour of their own here.
- `RelationshipSide::getBusinessModel` is not declared. The model reads the owner model or entity the side was built with, and a null remote side is the fatal call error.
- `DatabaseAdapter::getBusinessModelColumnName` (called from the SQL column filter) is not declared. A model's column is modelled as the adapter's entity column name.
- `DataSet::getIdentifier` is not declared. It is the optional `identifier` of a data-set view and a parameter of `Datasets.DatasetElement.GetIdentifierValue` and `GetUniqueName`; where it is absent, the call on its result is PHP's fatal call on null.
- `DataSet::getElement` is not declared. It is the `SqlTwig.ElementFinder` parameter, which returns the values of the element found, if any.
- `DataSet::isUniqueField` is not declared. It is a boolean parameter of `Datasets.DatasetElement.GetUniqueName`.
- `DatabaseAdapter::getDatasetDatabaseFields` is not declared. `SqlTwig.DatabaseFields` gives a data set's fields in order.
- `SqlTwigExtension::indexesFunction` calls `getBusinessModelIndexes`, which is not declared, so it is not part of this model.
- DoctrineTwig.EntityAnnotations: the table's unique constraints and indexes are given as lists of index views. The template reads them from `getUniqueConstraints()` and `RelationalDatabaseAdapter::getIndexes` (modelled as `RelationalAdapter.GetIndexes`), but no lemma ties these lists to those sources, because the twig filters work on immutable views and the adapter builds mutable `Index` objects.
- `SqlTwigExtension::auditedFieldsFunction` only delegates to the adapter's `getAuditedFields`, which is modelled as `RelationalAdapter.AuditedFields`.
- `SqlTwigExtension::userFilter` uses an undeclared `$this->inflector`. It is modelled with the inflector parameter.
- Dates and times are formatted through `DateTimeInterface::format`, which is a parameter (`DateFormatter`).
- `PriceHelper`: its ICU number formatting and price validation are a predicate parameter. The SQL value filter's price branch is modelled as written: a numeric value is printed, and anything else is the fatal call to the undefined `PriceHelper::asFloat`.
- The email and URL checks (`filter_var`), date/time parsing and floating-point values are predicate parameters. Floats are not modelled as numbers.
- SqlTwig.Render: element references are followed through a `fuel` bound. Running out of fuel stands for PHP exhausting its memory on a cycle of data sets; the source has no bound.
- TwigValues.CallError: PHP's text for a call on the wrong value is kept only as far as its kind (fatal) and the member called.
- A TypeError's message includes PHP's trailing ", ... given" part where the model knows the given type (`ProjectConfig.NotString` for a `string` argument, `ProjectConfig.Returned` for a `string` return value, and `Relationships.SideTypeError`). The messages built by `TwigValues.TypeMismatch` stop before it.
- `get_class` follows PHP 7.2 and later: a non-object gives a warning and false, which a message reads as ''.
- `strlen` counts bytes, while the model counts characters; the two agree on ASCII names. Case conversion is ASCII only, as `strtolower` is without a locale.
- `PHP_EOL` is modelled as "\n".
- `MarkdownTwig.Type`: the 'Unknown' type of a data bundle cannot be reached, because a bundle's structure is always simple or list.
- `MySqlTwig`: the collation check reads the remote model's identifier through the side's owner, standing for the undeclared `RelationshipSide::getBusinessModel`.
- The adapters' loops over a list of entities assume the entities are distinct objects. A list that holds the same entity twice would visit it twice and could add a second generated identifier.
- Objects that are not what a filter expects become `CallError` results, PHP's fatal "call to a member function on ..." error.
- The Doctrine extension's tests use `BusinessModel` where the extension's signatures name `Entity`. The model follows the extension.
- Relationships.Link: over business-model owners it builds the relationship the helper evidently intends; as written, PHP stops with a TypeError first (see Findings and `Relationships.CreateModelRelationshipAsWritten`). It also finds back fields by exact comparison of a remote field's type with the owner's name, while the source's `==` compares two numeric strings as numbers.
- Relationships.LinkOneWay: over a business model it models the corrected behaviour; as written, `new RelationshipSide($businessModel, $field)` throws a TypeError (see Findings).
- Relationships.LinkBothWays: over a business model it models the corrected behaviour; as written, the first `new RelationshipSide` throws a TypeError (see Findings).
- Relationships.CreateModelRelationship: models the corrected behaviour; the as-written call is `Relationships.CreateModelRelationshipAsWritten` (see Findings).
- Relationships.BuildModelRelationships: models the corrected behaviour; the as-written loop is `Relationships.BuildModelRelationshipsAsWritten` (see Findings).
- Relationships.ModelStep: one turn of the corrected loop (see Findings).
- Relationships.LinkModelFields: the corrected inner loop; the as-written one is `Relationships.LinkModelFieldsAsWritten` (see Findings).
- Relationships.LinkStep: one turn of the corrected inner loop (see Findings).
- Relationships.LinkModelField: one corrected createRelationship call (see Findings).
- Model.RelationshipSide.constructor: it also accepts a business-model owner, which the declared `Entity` parameter type refuses (see Findings).
- LanguageTwig.Words: a name that is an array is a fatal error here, while `str_replace` replaces in each element and returns an array, which the filter's string result cannot hold.
- StateMachines.State.AddTransition: compares the state names exactly, while the source's `!=` compares two numeric strings as numbers, so names such as '1' and '01' would count as the same there.
- Processes.BusinessProcess.ContainsRole: compares roles exactly, while `array_search` compares loosely, so numeric strings such as '1' and '01' would match there.
- Processes.BusinessProcess.AddRole: relies on ContainsRole and shares its exact comparison.
- Bundles.BusinessBundle.GetBusinessProcessCategories: deduplicates categories by exact text, while `in_array` compares loosely (numeric strings as numbers, null equal to '').
- Bundles.BusinessBundle.GetBusinessProcessesForCategory: matches categories exactly, while the source's `==` compares loosely.
- Bundles.OfCategoryExactly: states the exact match of GetBusinessProcessesForCategory.
- ModelHelpers.CollectLinked: deduplicates owners by identity, while `in_array` compares objects property by property, so two distinct but equal models would count once there (and owners whose properties lead back to each other can make PHP stop at its nesting limit).
- ModelHelpers.GetLinkedBusinessModels: shares CollectLinked's identity comparison.
- ModelHelpers.GetLinkedEntities: shares CollectLinked's identity comparison.
- Relationships.BackFieldsExactly: compares a remote field's type with the owner's name exactly, while the source's `==` compares two numeric strings as numbers, so a model '1' would find a field typed '01' there.
- Relationships.CollectBackFields: keeps a remote field only on an exact type match, while the source's `==` compares two numeric strings as numbers.
- Relationships.CreateEntityRelationship: finds back fields by the same exact comparison, while the source's `==` compares two numeric strings as numbers.
- DataBundleHelpers.IsFieldInList: compares field names exactly, while the source's `==` compares two numeric strings as numbers, so a field '1' would be in a list naming '01' there.
- DataBundleHelpers.DataBundleHelper.AddBusinessModelExceptFields: excludes fields through IsFieldInList's exact comparison, while the source's `==` compares two numeric strings as numbers.
- DataModel.FetchAdmission: compares the data's source with the bundle's exactly, while the source's `==` compares two numeric strings as numbers, so a bundle of source '1' would admit data of source '01' there.
- DataModel.DataBundle.AddData: a fetch bundle admits existing data through FetchAdmission's exact comparison, while the source's `==` compares two numeric strings as numbers.
- ProjectConfig.LoadedBundle: a stored name that is null or an array fails here at load time, while BusinessBundle's untyped constructor accepts it and PHP fails only when `getName(): string` is later called. An array namespace is a fatal error here, while PHP 7's `rtrim` warns and leaves the namespace null. The model's bundle holds its name and namespace as strings, so it cannot carry such a bundle.
- ProjectConfig.LoadedBundleIntended: shares LoadedBundle's early failure on a null or array name and on an array namespace.
- ProjectConfig.ProjectConfiguration.GetBusinessBundle: shares LoadedBundle's early failure on a null or array name and on an array namespace.

## Findings

| source | as written | input that shows it | evidently intended | confidence | as-written member | corrected member |
|---|---|---|---|---|---|---|
| src/Command/ProjectConfiguration.php:45-57 | getBusinessBundle passes the stored description as a third argument to the BusinessBundle constructor, which takes only a namespace and a name, so the description is dropped | a configuration whose bundle has namespace 'App', name 'Shop' and description 'A shop' | the loaded bundle carries the stored description, as setBusinessBundle wrote it | not executed | ProjectConfig.LoadedBundle, ProjectConfig.DescriptionLost | ProjectConfig.LoadedBundleIntended, ProjectConfig.BundleRoundTrip |
| src/Twig/JavaTwigExtension.php:75-126 | typeFilter wraps the primitive name in List<> for a list field | a list field of type int gives 'List<int>' | a list of the boxed type, as listTypeFilter computes it: 'List<Integer>' | not executed | JavaTwig.Type, JavaTwig.IntListIsPrimitive | JavaTwig.CorrectedType, JavaTwig.CorrectedListIsBoxed |
| src/Twig/SqlTwigExtension.php:140 | the message concatenates its text with null before comparing with === $obj, so the comparison is false and the ternary yields get_class($obj) alone | any object the filter does not handle, such as a data set, yields only its class name | the fixed text followed by 'null' or the class name | not executed | SqlTwig.ColumnRejectedAsWritten, SqlTwig.ColumnMessageLosesText | SqlTwig.ColumnRejected |
| src/Twig/DoctrineOrmTwigExtension.php:131-186 | the column switch has a price case, but it sits under the isDouble test, which is false for a price, so a price field gets no column annotation | a mandatory field of type price that is not an identifier and has no relation gives no annotations | a decimal column with precision 9 and scale 2 | not executed | DoctrineTwig.ColumnTypeAsWritten, DoctrineTwig.PriceColumnDropped, DoctrineTwig.FieldAnnotationsAsWritten, DoctrineTwig.PriceFieldUnannotated | DoctrineTwig.ColumnType, DoctrineTwig.ColumnForEveryFamily, DoctrineTwig.FieldAnnotations, DoctrineTwig.PriceFieldIsDecimalColumn |
| src/Twig/DoctrineOrmTwigExtension.php:194-229 | relation annotations name the target with $this->getName($remoteEntity), but getName does not recognise an Entity and returns the object itself, so the concatenation fails because an Entity cannot be converted to a string | a one-to-many relation between two entities | the target entity's name, used in targetEntity and mappedBy/inversedBy | not executed | DoctrineTwig.RelationAssociationAsWritten, DoctrineTwig.RelationAnnotationLost | DoctrineTwig.RelationAssociation, DoctrineTwig.OwningSideHoldsForeignKey |
| src/Helper/BusinessModelHelper.php:127-140 | each unique constraint that names the field overwrites the answer, so only the last one counts | a single-field constraint on 'email' followed by a constraint on 'email' and 'name' gives false | true when some unique constraint holds just this field, as the method's documentation says | not executed | ModelHelpers.IsUniqueField, ModelHelpers.UniqueAsWritten, ModelHelpers.WiderConstraintHidesUnique | ModelHelpers.IsUniqueFieldCorrected, ModelHelpers.HasSoleConstraint |
| src/Helper/BusinessBundleHelper.php:45-104 | createRelationship builds `new RelationshipSide($businessModel, ...)` on both linking paths, but the RelationshipSide constructor declares an Entity parameter and BusinessModel does not extend Entity, so PHP throws a TypeError before any relation is set | a bundle with models Order and Customer, where Order has a field 'customer' of type 'Customer' | the two models are linked as PackageHelper links entities: here a one-to-one from Order to Customer | not executed | Relationships.CreateModelRelationshipAsWritten, Relationships.BuildModelRelationshipsAsWritten | Relationships.CreateModelRelationship, Relationships.BuildModelRelationships |
