# organizator-webview, modelled in Dafny

A model of the core of the organizator-webview browser client. The client manages organizations,
their coordinates and their addresses. The model covers:

- **The entity store** (`database.dfy`): three id-keyed maps (organizations, coordinates,
  addresses). It has add, update-only and remove operations and the one-time bulk load
  (`loadData`, `arrayToMap`).
- **The push-event listener** (`event_stream.dfy`): five named server events, each turned into one
  store mutation. Also the register / unregister / close lifecycle of their handlers on the
  connection.
- **The record classes** (`entities.dfy`): `Coordinates`, `Address` and `Organization`, whose
  setters change one field each. The coordinate setters refuse non-integers with
  `NumberFormatException`.
- **The validators** (`validation.ts` in `validation.dfy`, `user/validation.ts` in
  `user_validation.dfy`): exact messages in check order. They rest on models of JavaScript's
  `Number()`, `parseInt`, `trim`, `toString` and `length` in UTF-16 code units (`numbers.dfy`,
  `strings.dfy`).
- **The three form sections** (`coordinates_section.dfy`, `address_section.dfy`,
  `general_info_section.dfy`):
  - the keystroke filters (`/^-?\d*$/` and `/^\d*\.?\d*$/`), characterised character by
    character;
  - the change, mode-switch and select handlers;
  - the one debounced validator each section shares between its fields.
- **The creation orchestrator** (`organization_api.dfy`): `createOrganizationData` resolves three
  slots in order. Each slot is created on the server, reused from a selection, or left unset.
  The first call that does not answer 201 aborts the run and discards every id. The server is an
  oracle: the sequence of replies the calls receive.
- **The dialog** (`organization_modal.dfy`): `isFormValid`, the disabled state of the Create
  button, and `handleCreateOrganization`. That handler runs the orchestrator and then, only on
  success, sends the organization with the trimmed names, the run's ids and the numbers read with
  `parseInt`.
- **The table columns** (`columns.dfy`): the type, coordinates and address formatters and the
  column list.

State-changing code is modelled imperatively:

- The store is a class `Database` whose methods are proved against the pure map operations `Put`,
  `PutIfPresent` and `Delete`.
- Event handling is proved against the pure `Effect`, with `Replay` as the function over a stream
  of events.
- `createOrganizationData` is a method with one block per slot, proved against the recursive
  specification `Resolve`.
- `handleCreateOrganization` is proved against `Submit`.

The lemmas about `Effect`/`Replay`, `Resolve` and `Submit` state what the source promises.

`ORGANIZATION_UPDATED` goes through `updateOrganization`, which only overwrites an existing entry:
an update for an id the store does not hold is dropped (`UpdateNeverInserts`).

## Model

| member | source | states |
|---|---|---|
| Entities.Coordinates.constructor | src/entities/organization/attribute/Coordinates.ts:8-12 | id, x and y are stored as given |
| Entities.Coordinates.SetX | src/entities/organization/attribute/Coordinates.ts:14-19 | an integer is stored and the call passes; a non-integer fails with NumberFormatException carrying the value, and x is unchanged |
| Entities.Coordinates.SetY | src/entities/organization/attribute/Coordinates.ts:21-26 | the same guard on y |
| Entities.Address.constructor | src/entities/organization/attribute/Address.ts:7-11 | id, street and zip are stored as given, empty text included |
| Entities.Address.SetStreet | src/entities/organization/attribute/Address.ts:20-22 | only street changes |
| Entities.Address.SetZip | src/entities/organization/attribute/Address.ts:27-29 | only zip changes |
| Entities.TypesAreFiveDistinct | src/entities/organization/Organization.ts:146-152 | exactly five types, every type listed, no two with the same string value |
| Entities.Organization.constructor | src/entities/organization/Organization.ts:23-49 | each argument lands in its own field; the type is never null after construction |
| Entities.Organization.SetName | src/entities/organization/Organization.ts:101-103 | only name changes (field-level frame) |
| Entities.Organization.SetCoordinates | src/entities/organization/Organization.ts:105-107 | only coordinates changes |
| Entities.Organization.SetCreationDate | src/entities/organization/Organization.ts:109-111 | only creationDate changes |
| Entities.Organization.SetAddress | src/entities/organization/Organization.ts:113-115 | only address changes |
| Entities.Organization.SetAnnualTurnover | src/entities/organization/Organization.ts:117-119 | only annualTurnover changes |
| Entities.Organization.SetEmployeesCount | src/entities/organization/Organization.ts:121-123 | only employeesCount changes |
| Entities.Organization.SetRating | src/entities/organization/Organization.ts:125-127 | only rating changes |
| Entities.Organization.SetFullName | src/entities/organization/Organization.ts:129-131 | only fullName changes |
| Entities.Organization.SetType | src/entities/organization/Organization.ts:133-135 | only the type changes, and it may become null |
| Entities.Organization.SetPostalAddress | src/entities/organization/Organization.ts:137-139 | only postalAddress changes |
| Entities.Organization.SetOwnerId | src/entities/organization/Organization.ts:141-143 | only ownerId changes |
| DatabaseContext.Put | src/components/context/DatabaseContext.tsx:102-104 | the id maps to the value whether or not it was present; the keys gain the id; every other entry is kept |
| DatabaseContext.PutIfPresent | src/components/context/DatabaseContext.tsx:106-114 | the key set is unchanged; a present id is overwritten; an absent id leaves the map as it was |
| DatabaseContext.Delete | src/components/context/DatabaseContext.tsx:116-122 | the id is gone, every other entry is kept, and deleting an absent id changes nothing |
| DatabaseContext.DeleteIdempotent | src/components/context/DatabaseContext.tsx:116-122 | deleting twice is deleting once |
| DatabaseContext.PutsCommute | src/components/context/DatabaseContext.tsx:102-104 | two adds for different ids give the same map in either order |
| DatabaseContext.PutAndUpdateCommute | src/components/context/DatabaseContext.tsx:102-114 | an add and an update for different ids commute |
| DatabaseContext.UpdatesCommute | src/components/context/DatabaseContext.tsx:106-114 | two updates for different ids commute |
| DatabaseContext.ArrayToMap | src/components/context/DatabaseContext.tsx:59-61 | every value in the map is an element of the array |
| DatabaseContext.ArrayToMapKeys | src/components/context/DatabaseContext.tsx:59-61 | the keys are exactly the ids of the array's elements |
| DatabaseContext.ArrayToMapLastWins | src/components/context/DatabaseContext.tsx:59-61 | an id maps to the last element that carries it |
| DatabaseContext.ArrayToMapSize | src/components/context/DatabaseContext.tsx:59-61 | with distinct ids, N elements give N entries |
| DatabaseContext.FiledUnderKey | src/components/context/DatabaseContext.tsx:59-61 | every entry of arrayToMap is filed under the key of its own value |
| DatabaseContext.Records | src/components/context/DatabaseContext.tsx:85-88 | the organizations are taken from the listed pairs one for one, in order |
| DatabaseContext.ArrayToMapKeyedById | src/components/context/DatabaseContext.tsx:90-92 | the loaded stores file every record under its own id |
| DatabaseContext.Database.constructor | src/components/context/DatabaseContext.tsx:66-72 | all three stores start empty |
| DatabaseContext.Database.SetOrganizations | src/components/context/DatabaseContext.tsx:66-68 | the organization store becomes the given map |
| DatabaseContext.Database.SetCoordinates | src/components/context/DatabaseContext.tsx:69-71 | the coordinates store becomes the given map |
| DatabaseContext.Database.SetAddresses | src/components/context/DatabaseContext.tsx:72 | the address store becomes the given map |
| DatabaseContext.Database.AddOrganization | src/components/context/DatabaseContext.tsx:102-104 | the organization store becomes Put of the old one |
| DatabaseContext.Database.UpdateOrganization | src/components/context/DatabaseContext.tsx:106-114 | the organization store becomes PutIfPresent of the old one |
| DatabaseContext.Database.RemoveOrganization | src/components/context/DatabaseContext.tsx:116-122 | the organization store becomes Delete of the old one |
| DatabaseContext.Database.AddCoordinates | src/components/context/DatabaseContext.tsx:125-127 | the coordinates store becomes Put of the old one |
| DatabaseContext.Database.RemoveCoordinates | src/components/context/DatabaseContext.tsx:129-135 | the coordinates store becomes Delete of the old one |
| DatabaseContext.Database.AddAddress | src/components/context/DatabaseContext.tsx:138-140 | the address store becomes Put of the old one |
| DatabaseContext.Database.RemoveAddress | src/components/context/DatabaseContext.tsx:142-148 | the address store becomes Delete of the old one |
| DatabaseContext.AttachOwners | src/components/context/DatabaseContext.tsx:84-88 | every organization carries the ownerId listed beside it, and the list is the organizations in array order |
| DatabaseContext.Database.LoadData | src/components/context/DatabaseContext.tsx:76-96 | on success each organization carries the ownerId listed beside it and each store is arrayToMap of its array; on a failed fetch nothing changes |
| EventStream.HandleOrganizationCreated | src/components/context/SSEListener.tsx:47-56 | ownerId is copied onto the organization, which is then added under its id |
| EventStream.HandleOrganizationUpdated | src/components/context/SSEListener.tsx:58-67 | ownerId is copied, then the organization replaces an existing entry only |
| EventStream.HandleOrganizationDeleted | src/components/context/SSEListener.tsx:69-72 | the id is removed |
| EventStream.HandleCoordinatesCreated | src/components/context/SSEListener.tsx:74-77 | the coordinates are added under their id |
| EventStream.HandleAddressCreated | src/components/context/SSEListener.tsx:79-82 | the address is added under its id |
| EventStream.Apply | src/components/context/SSEListener.tsx:84-101 | each event runs the handler registered for its name; the new stores are Effect of the old; of the decoded organization only its ownerId may change, and it becomes the event's ownerId |
| EventStream.EventSource.constructor | src/components/context/SSEListener.tsx:43-45 | a new connection has no listeners and is open |
| EventStream.EventSource.AddEventListener | src/components/context/SSEListener.tsx:85-101 | the event name is registered |
| EventStream.EventSource.RemoveEventListener | src/components/context/SSEListener.tsx:114-130 | the event name is unregistered |
| EventStream.EventSource.Close | src/components/context/SSEListener.tsx:131 | the connection is closed |
| EventStream.Connect | src/components/context/SSEListener.tsx:43-101 | mounting opens one fresh connection with exactly the five event names registered |
| EventStream.Teardown | src/components/context/SSEListener.tsx:112-132 | teardown unregisters all five names and closes the connection |
| EventStream.Deliver | src/components/context/SSEListener.tsx:84-101 | a registered name on an open connection applies Effect and sets the payload's ownerId; otherwise neither the stores nor the payload change |
| EventStream.ReplayKeepsKeyedById | src/components/context/SSEListener.tsx:47-82 | any stream of events keeps every record filed under its own id |
| EventStream.ReplayNeverShrinksSubResources | src/components/context/SSEListener.tsx:74-82 | no event removes coordinates or addresses |
| EventStream.OrganizationEventsLeaveSubResources | src/components/context/SSEListener.tsx:47-72 | organization events leave the other two stores unchanged |
| EventStream.UpdateNeverInserts | src/components/context/SSEListener.tsx:58-67 | an update keeps the set of organization ids; for an unknown id it changes nothing |
| EventStream.DeleteThenUpdateStaysDeleted | src/components/context/SSEListener.tsx:58-72 | an update after a delete of the same id does not bring it back |
| EventStream.DeleteTwiceIsDeleteOnce | src/components/context/SSEListener.tsx:69-72 | a repeated delete is a no-op |
| EventStream.CreatedIsVisible | src/components/context/SSEListener.tsx:47-56 | after a create event the organization is stored under its id |
| EventStream.IndependentEventsCommute | src/components/context/SSEListener.tsx:47-67 | create/update events for different ids commute |
| Strings.TrimEmptyIffBlank | src/validation.ts:28 | trim gives the empty string exactly for whitespace-only text |
| Numbers.ParseIntOfIntToString | src/components/ui/table/modal/CoordinatesSection.tsx:121-122 | parseInt reads back the text toString writes for any integer |
| Numbers.ToNumberOfIntToString | src/validation.ts:110 | Number reads back that text as the same integer |
| Numbers.ParseIntIsFloorOfNumber | src/components/ui/table/modal/OrganizationModal.tsx:159-161 | for a text Number reads as at least 1, parseInt gives the floor of that value |
| Numbers.TwoPointFive | src/components/ui/table/modal/OrganizationModal.tsx:161 | Number reads "2.5" as 25 tenths; parseInt reads 2 |
| Numbers.ZeroPointFive | src/components/ui/table/modal/OrganizationModal.tsx:161 | Number reads "0.5" as 5 tenths; parseInt reads 0 |
| Numbers.PointFive | src/components/ui/table/modal/OrganizationModal.tsx:161 | Number reads ".5" as 5 tenths; parseInt finds no digit (NaN) |
| Validation.ValidateUsername | src/validation.ts:1-15 | empty iff 3..50 UTF-16 code units long and only ASCII letters and digits; each failure gives its message in check order, lengths counted as `length` counts them |
| Validation.ValidatePassword | src/validation.ts:17-22 | empty iff the password is non-empty; whitespace passes |
| Validation.ValidateName | src/validation.ts:24-32 | empty iff non-empty and not all whitespace, with both messages |
| Validation.ValidateFullName | src/validation.ts:34-42 | the same for the full name |
| Validation.NumberChecks | src/validation.ts:48-58 | the checks on the decimal match the checks on its value: positive, whole, above a bound |
| Validation.ValidateAnnualTurnover | src/validation.ts:44-59 | empty iff Number reads a positive integer; each failure gives its message |
| Validation.ValidateEmployeesCount | src/validation.ts:61-76 | the same for the employee count |
| Validation.ValidateRating | src/validation.ts:78-90 | empty iff Number reads a positive number, fractions allowed |
| Validation.ValidateCoordinatesX | src/validation.ts:92-104 | empty iff an integer of at most 442, with no lower bound; each failure gives its message |
| Validation.ValidateCoordinatesY | src/validation.ts:106-115 | empty iff an integer |
| Validation.ValidateStreet | src/validation.ts:117-122 | empty iff the street is non-empty |
| Validation.ValidateZip | src/validation.ts:124-129 | empty iff the zip is non-empty |
| Validation.UsernameLengthBoundary | src/validation.ts:8-10 | 50 characters pass, 51 fail with the too-long message |
| Validation.SupplementaryCharacterCountsTwice | src/validation.ts:5-13 | "a" followed by an emoji is three code units long, so it passes the length checks and is refused for its characters |
| Validation.EmptyUsernameReportsEmpty | src/validation.ts:2-4 | the empty check comes before the length check |
| Validation.NumberValueOfInteger | src/validation.ts:96 | the text of an integer reads as that integer, which is whole |
| Validation.CoordinatesXOfInteger | src/validation.ts:92-104 | on an integer's text, X passes iff the integer is at most 442 |
| Validation.CoordinatesYOfInteger | src/validation.ts:106-115 | Y passes the text of every integer |
| Validation.LoneMinusIsNotAnInteger | src/validation.ts:97-98 | "-" is not a valid integer for X or Y |
| Validation.RatingAcceptsFraction | src/validation.ts:78-90 | "2.5" passes as a rating and fails as a turnover |
| UserValidation.ValidateUsername | src/user/validation.ts:1-15 | empty iff 3..50 UTF-16 code units long and alphanumeric; the character message only within the length bounds |
| UserValidation.ValidatePassword | src/user/validation.ts:17-22 | empty iff non-empty |
| UserValidation.AgreeWithFormValidators | src/user/validation.ts:1-22 | both copies give the same message on every input |
| Columns.FormatOrganizationType | src/components/ui/table/columns.ts:7-9 | "-" exactly for a missing, empty or "-" type; otherwise the same length, the first "_" a space, letters lower-cased |
| Columns.OnlyFirstUnderscoreReplaced | src/components/ui/table/columns.ts:7-9 | underscores after the first one are kept |
| Columns.TypeCellText | src/components/ui/table/columns.ts:7-9 | a type whose first "_" is at k (or which has none) is shown as its lower-cased letters with a space at k |
| Columns.CommercialTypeCell | src/components/ui/table/columns.ts:20-21 | COMMERCIAL is shown as "commercial" |
| Columns.PublicTypeCell | src/components/ui/table/columns.ts:20-21 | PUBLIC is shown as "public" |
| Columns.GovernmentTypeCell | src/components/ui/table/columns.ts:20-21 | GOVERNMENT is shown as "government" |
| Columns.PrivateLimitedCompanyTypeCell | src/components/ui/table/columns.ts:20-21 | PRIVATE_LIMITED_COMPANY is shown as "private limited_company" |
| Columns.OpenJointStockCompanyTypeCell | src/components/ui/table/columns.ts:20-21 | OPEN_JOINT_STOCK_COMPANY is shown as "open joint_stock_company" |
| Columns.CoordinatesTextParts | src/components/ui/table/columns.ts:23-27 | "(x; y)" is the parenthesised x text, "; ", then the y text |
| Columns.CoordinatesTextReadsBack | src/components/ui/table/columns.ts:23-27 | both numbers can be read back from the cell with parseInt |
| Columns.CoordinatesTextInjective | src/components/ui/table/columns.ts:23-27 | different coordinates never show the same cell |
| Columns.CoordinatesCell | src/components/ui/table/columns.ts:23-27 | "-" when there are no coordinates, otherwise their "(x; y)" text, which is never "-" |
| Columns.AddressText | src/components/ui/table/columns.ts:29-33 | street, ":", zip |
| Columns.AddressTextSplits | src/components/ui/table/columns.ts:29-33 | a street without ":" can be split back off the cell |
| Columns.AddressTextAmbiguous | src/components/ui/table/columns.ts:29-33 | "a:b" + "c" and "a" + "b:c" show the same cell |
| Columns.AddressCell | src/components/ui/table/columns.ts:29-33 | "-" when there is no address, otherwise street:zip |
| Columns.CreateColumns | src/components/ui/table/columns.ts:36-93 | twelve columns in field order, each with its header; every column is rendered by its field's formatter (date, turnover, type, coordinates, address for both address fields) and the rest as plain values; only the id column has a width, 80 |
| Columns.ColumnsCoverFieldsOnce | src/components/ui/table/columns.ts:36-94 | twelve columns, no key twice, the last one the owner |
| OrganizationApi.CoordinatesAction | src/entities/organization/organizationApi.ts:45-60 | a call iff manual with both fields non-empty, sending the parseInt of each; reuse iff existing with a truthy id |
| OrganizationApi.AddressAction | src/entities/organization/organizationApi.ts:62-77 | a call iff manual with street and zip non-empty; reuse iff existing with a truthy id |
| OrganizationApi.Resolve | src/entities/organization/organizationApi.ts:44-100 | a successful run has one id slot per slot, and no run makes more calls than there are slots |
| OrganizationApi.CreateOrganizationData | src/entities/organization/organizationApi.ts:28-101 | result, calls, notices and unread replies are those of Resolve over the three planned slots |
| OrganizationApi.CoordinatesBlock | src/entities/organization/organizationApi.ts:45-60 | the coordinates block is the first step of Resolve; on failure it shows no notice and the run ends |
| OrganizationApi.AddressBlock | src/entities/organization/organizationApi.ts:62-94 | the same for each of the two address blocks |
| OrganizationApi.ResolveStep | src/entities/organization/organizationApi.ts:44-100 | one slot: left or reused makes no call; created makes one; a call that is not 201 ends the run with no ids |
| OrganizationApi.RequestsArePlannedPrefix | src/entities/organization/organizationApi.ts:44-95 | the calls and notices made are a prefix of the planned ones, in slot order |
| OrganizationApi.SuccessIffAllCreated | src/entities/organization/organizationApi.ts:44-100 | success iff every planned call answers 201; otherwise the run stopped at the first call that did not, after which nothing is read |
| OrganizationApi.SlotIds | src/entities/organization/organizationApi.ts:44-96 | on success each slot holds nothing, the chosen id, or the id of its own call's reply |
| OrganizationApi.OnlyLeftSlotsAreUnset | src/entities/organization/organizationApi.ts:44-96 | on success exactly the left slots have no id |
| OrganizationApi.FailuresAreIndistinguishable | src/entities/organization/organizationApi.ts:97-100 | replies that agree on which calls answered 201 (and on their ids) give the same run: a 401 and a 500 look the same |
| OrganizationApi.AtMostThreeCalls | src/entities/organization/organizationApi.ts:44-95 | at most three calls, in slot order |
| OrganizationApi.UnauthorizedShortCircuits | src/entities/organization/organizationApi.ts:53-54 | a 401 on the coordinates call stops the run with no ids, one call and no notice |
| OrganizationApi.ZeroIdLeavesSlotUnset | src/entities/organization/organizationApi.ts:58-60 | a selected id of 0 is falsy, so the slot is left unset while the run succeeds |
| OrganizationApi.EmptyManualFieldIsSkipped | src/entities/organization/organizationApi.ts:45 | a manual slot with an empty field makes no call and is left unset |
| OrganizationApi.MixedModesScenario | src/entities/organization/organizationApi.ts:44-96 | manual coordinates with both fields filled, a reused address 3 and a manual postal address make two calls (the coordinates sent through parseInt), and the ids come out in slot order |
| OrganizationApi.CreateReuseCreate | src/entities/organization/organizationApi.ts:44-96 | create, reuse, create with two 201 replies gives both reply ids and the reused id in slot order, two calls and two notices |
| CoordinatesSection.CoordinateKeystrokeIff | src/components/ui/table/modal/CoordinatesSection.tsx:74 | the filter accepts exactly digits, with an optional minus in first position |
| CoordinatesSection.IntegerTextPasses | src/components/ui/table/modal/CoordinatesSection.tsx:121-122 | the text of any stored number passes the filter |
| CoordinatesSection.FilteredTextReadsAsInteger | src/components/ui/table/modal/CoordinatesSection.tsx:74 | on filtered text other than "" and "-", Number and parseInt agree on one integer |
| CoordinatesSection.FilteredYIsValid | src/components/ui/table/modal/CoordinatesSection.tsx:83-93 | on filtered text, the Y check fails only for "" and "-" |
| CoordinatesSection.CoordinatesForm.constructor | src/components/ui/table/modal/CoordinatesSection.tsx:47-50 | manual mode, empty fields, nothing selected, no errors, nothing pending |
| CoordinatesSection.CoordinatesForm.HandleXChange | src/components/ui/table/modal/CoordinatesSection.tsx:71-81 | an accepted keystroke sets X, clears its error and replaces the pending check; a rejected one changes nothing |
| CoordinatesSection.CoordinatesForm.HandleYChange | src/components/ui/table/modal/CoordinatesSection.tsx:83-93 | the same on Y |
| CoordinatesSection.CoordinatesForm.DebounceElapsed | src/components/ui/table/modal/CoordinatesSection.tsx:52-65 | the pending check writes its validator's message into its own field's error only |
| CoordinatesSection.CoordinatesForm.HandleInputModeChange | src/components/ui/table/modal/CoordinatesSection.tsx:95-114 | manual clears the selection; existing clears both numbers and both errors |
| CoordinatesSection.CoordinatesForm.HandleCoordinateSelect | src/components/ui/table/modal/CoordinatesSection.tsx:116-181 | the chosen item, "None selected" included, becomes the selection; a stored record's numbers fill the fields as text and clear the errors; "None selected" or an unknown id changes nothing else |
| CoordinatesSection.SelectThenDeselect | src/components/ui/table/modal/CoordinatesSection.tsx:116-181 | in existing mode, "None selected" after a record empties the selection, so the coordinates no longer count as filled in and Create is disabled |
| AddressSection.AddressForm.constructor | src/components/ui/table/modal/AddressSection.tsx:46-49 | manual mode, empty fields, nothing selected, no errors, nothing pending |
| AddressSection.AddressForm.HandleStreetChange | src/components/ui/table/modal/AddressSection.tsx:72-80 | any text is taken, its error cleared, its check made pending |
| AddressSection.AddressForm.HandleZipChange | src/components/ui/table/modal/AddressSection.tsx:82-90 | the same on the zip |
| AddressSection.AddressForm.DebounceElapsed | src/components/ui/table/modal/AddressSection.tsx:51-65 | the pending check writes its message into its own field's error only |
| AddressSection.AddressForm.HandleInputModeChange | src/components/ui/table/modal/AddressSection.tsx:92-111 | manual clears the selection; existing clears street, zip and both errors |
| AddressSection.AddressForm.HandleAddressSelect | src/components/ui/table/modal/AddressSection.tsx:113-178 | the chosen item, "None selected" included, becomes the selection; a stored record's street and zip fill the fields and clear the errors; "None selected" or an unknown id changes nothing else |
| GeneralInfoSection.NumericKeystrokeIff | src/components/ui/table/modal/GeneralInfoSection.tsx:102 | the filter accepts exactly digits and points with no two points |
| GeneralInfoSection.NumericKeystrokeValue | src/components/ui/table/modal/GeneralInfoSection.tsx:93-109 | on filtered text, Number gives NaN only for "." and is never negative |
| GeneralInfoSection.GeneralInfoForm.constructor | src/components/ui/table/modal/GeneralInfoSection.tsx:54-60 | all five errors empty; empty texts and no type, as the dialog starts |
| GeneralInfoSection.GeneralInfoForm.HandleNameChange | src/components/ui/table/modal/GeneralInfoSection.tsx:83-91 | any text is taken, its error cleared, its check made pending |
| GeneralInfoSection.GeneralInfoForm.HandleFullNameChange | src/components/ui/table/modal/GeneralInfoSection.tsx:142-150 | the same on the full name |
| GeneralInfoSection.GeneralInfoForm.HandleNumericChange | src/components/ui/table/modal/GeneralInfoSection.tsx:93-109 | an accepted keystroke sets only its field, clears its error and makes its check pending; a rejected one changes nothing |
| GeneralInfoSection.GeneralInfoForm.HandleAnnualTurnoverChange | src/components/ui/table/modal/GeneralInfoSection.tsx:111-121 | an accepted keystroke sets the turnover, clears its error and makes the turnover check pending; a rejected one changes nothing; the other two numbers are kept |
| GeneralInfoSection.GeneralInfoForm.HandleEmployeesCountChange | src/components/ui/table/modal/GeneralInfoSection.tsx:123-133 | the same on the employee count, with its check pending; the other two numbers are kept |
| GeneralInfoSection.GeneralInfoForm.HandleRatingChange | src/components/ui/table/modal/GeneralInfoSection.tsx:135-140 | the same on the rating, with its check pending; the other two numbers are kept |
| GeneralInfoSection.GeneralInfoForm.HandleOrganizationTypeChange | src/components/ui/table/modal/GeneralInfoSection.tsx:152-157 | the chosen type is set |
| GeneralInfoSection.GeneralInfoForm.DebounceElapsed | src/components/ui/table/modal/GeneralInfoSection.tsx:62-76 | the pending check writes its validator's message into its own field's error only |
| OrganizationModal.GeneralInfoValid | src/components/ui/table/modal/OrganizationModal.tsx:88-94 | holds iff both names have non-blank text, turnover and employee count are positive integers, the rating is a positive number and a type is chosen |
| OrganizationModal.CoordinatesValid | src/components/ui/table/modal/OrganizationModal.tsx:96-103 | manual: iff X is an integer of at most 442 and Y an integer; existing: iff some id is selected, 0 included |
| OrganizationModal.AddressValid | src/components/ui/table/modal/OrganizationModal.tsx:105-122 | manual: iff street and zip are non-empty; existing: iff some id is selected |
| OrganizationModal.IsFormValid | src/components/ui/table/modal/OrganizationModal.tsx:86-130 | a valid form has a type, non-blank names, typed coordinates in both fields and a selection in every existing-mode address slot |
| OrganizationModal.IsCreateDisabled | src/components/ui/table/modal/OrganizationModal.tsx:188 | never disabled in edit mode; in create mode disabled whenever the type is missing or the name is blank |
| OrganizationModal.PayloadOf | src/components/ui/table/modal/OrganizationModal.tsx:153-163 | the names are sent trimmed: empty exactly when blank, and otherwise without whitespace at either end; the ids are the run's ids |
| OrganizationModal.OrganizationNotice | src/components/ui/table/modal/OrganizationModal.tsx:165-182 | a success notice iff the call answered 201, naming the full name; 401 gives the unauthorized notice; any other status "Creation failed" / "Failed to create organization"; a rejected call "Creation failed" / "Failed to create organization resources" |
| OrganizationModal.HandleCreateOrganization | src/components/ui/table/modal/OrganizationModal.tsx:132-186 | in create mode the calls, notices and closing are those of Submit; in edit mode nothing happens |
| OrganizationModal.PlannedCallsAreSubResources | src/entities/organization/organizationApi.ts:44-95 | the sub-resource run never creates an organization and shows only success notices |
| OrganizationModal.SubResourceCalls | src/entities/organization/organizationApi.ts:44-95 | when no planned call creates an organization and every planned notice is a success, the same holds for any run |
| OrganizationModal.SubResourcePart | src/components/ui/table/modal/OrganizationModal.tsx:135-150 | the sub-resource run that every submission starts with: its calls, notices, success and unread replies |
| OrganizationModal.OrganizationSentIffResourcesCreated | src/components/ui/table/modal/OrganizationModal.tsx:150-179 | the organization is sent iff every sub-resource call answered 201, as the last call; otherwise the dialog stays open and no error is shown |
| OrganizationModal.ClosesIffEverythingCreated | src/components/ui/table/modal/OrganizationModal.tsx:165-182 | the dialog closes iff every call answered 201, naming the untrimmed full name; otherwise the last notice says which failure happened |
| OrganizationModal.CallCount | src/components/ui/table/modal/OrganizationModal.tsx:132-186 | at most three sub-resource calls plus one organization call, and the organization call only after all of them succeeded |
| OrganizationModal.ValidCoordinatesArePlanned | src/components/ui/table/modal/OrganizationModal.tsx:96-103 | valid coordinates are created when typed and reused when chosen; a chosen id of 0 is left |
| OrganizationModal.ValidAddressIsPlanned | src/components/ui/table/modal/OrganizationModal.tsx:105-122 | the same for each address slot |
| OrganizationModal.EnabledCreatePlansTypedSlots | src/components/ui/table/modal/OrganizationModal.tsx:188 | an enabled Create button means every typed slot will be sent and the names are not blank |
| OrganizationModal.ValidFormSendsAllIds | src/components/ui/table/modal/OrganizationModal.tsx:153-158 | after a successful run on a valid form without a 0 id, all three ids are sent |
| OrganizationModal.ZeroSelectionPassesButIsDropped | src/components/ui/table/modal/OrganizationModal.tsx:101-102 | a selected id of 0 passes the form check, yet the organization is sent without coordinates |
| OrganizationModal.PositiveIntegerIsParsedExactly | src/components/ui/table/modal/OrganizationModal.tsx:159-160 | a text that passes a positive-integer check is sent by parseInt as exactly its value |
| OrganizationModal.ValidCountsAreSentExactly | src/components/ui/table/modal/OrganizationModal.tsx:153-160 | on a valid form, turnover and employee count are sent as the values checked, and the names are sent trimmed and non-empty |
| OrganizationModal.RatingIsTruncated | src/components/ui/table/modal/OrganizationModal.tsx:161 | a rating of at least 1 is sent as its integer part |
| OrganizationModal.FractionalRatingsAreMangled | src/components/ui/table/modal/OrganizationModal.tsx:161 | "2.5" is sent as 2, "0.5" as 0 and ".5" as NaN, although all three pass the rating check |

## Left out

- Network I/O: each `fetch` is replaced by the next reply of a given sequence. A rejected
  promise, a failed `response.json()` or a call past the end of the sequence is `Thrown`. HTTP
  headers, URLs and JSON encoding are not modelled.
- The EventSource transport: reconnection, `onerror`/`onopen` logging and the JSON decoding of
  event data are left out. The `actionsRef` indirection is left out as well: the handlers call the
  store's current updaters, modelled as direct calls on one `Database`.
- React scheduling: state updaters are applied at once and in order, with no batching or
  re-render. `useMemo`/`useCallback` identity is not modelled.
- Debounce timing: the 300 ms wait is modelled as a pending check that a `DebounceElapsed` step
  applies. Time itself is not modelled.
- The form's values live in the dialog and the error texts in each section. The model keeps each
  section's values, errors and pending check in one object, and the dialog's state as the value
  `Form`.
- JavaScript numbers: `Number()` is modelled on plain decimal text (an optional sign, then
  `d+`, `d+.d*` or `.d+`, after trimming). The following are all NaN in the model, although
  JavaScript reads them as numbers:
  - exponent forms (`1e3`);
  - hexadecimal, octal and binary literals;
  - `Infinity`.
  Double-precision rounding, `-0` and the safe-integer limit are not modelled either: numbers
  are exact rationals and integers are unbounded.
- Numbers.ParseInt: reads decimal digits only. `parseInt` is called without a radix, so JavaScript
  reads a `0x`/`0X` prefix as hexadecimal (`parseInt("0x1A")` is 26, the model gives 0). The
  keystroke filters keep such text out of the form's fields, but `CoordinatesAction` and
  `PayloadOf` are stated over any text and do not cover it.
- Entities.Organization: annualTurnover, employeesCount, rating and ownerId are integers. The
  source declares them as JavaScript numbers, so a fractional rating or turnover received from
  the server cannot be held by the model.
- Entities.Coordinates.constructor: takes integer coordinates. The source constructor stores any
  number without the setters' integer check, so a non-integer given to the constructor is not
  represented.
- Columns.FormatOrganizationType: lower-cases ASCII letters only. JavaScript's full Unicode case
  mapping is not modelled; the five type names are ASCII.
- The creation-date and turnover cells (`creationDateCell`, `annualTurnoverCell`): luxon date
  parsing and locale-dependent number formatting are not modelled.
- Notifications: each notice is a title and a detail in one ordered sequence. The two channels
  (`notificationService` in the API module and `useNotification` in the dialog) are merged, and
  rendering, timeouts and dismissal are left out.
- Logging: `console.log`/`console.error` calls have no effect in the model.
- The edit path of the dialog only logs a message in the source. The model makes it do nothing.
- The `!` non-null assertions on the ids, and the `as OrganizationType` cast on the type, are
  compile-time only. An unset id is sent as a missing field, written `None` in the payload. With
  no type chosen the dialog sends the empty string as the type; the model sends `None` (only
  reachable on a form whose Create button is disabled).
- Login, signup, the user header and session, the toolbar buttons, the table wiring and the
  notification provider are not part of this model.
