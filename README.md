# Request-to-query bundle: filters, sorts and pagination

This is a Dafny model of the part of a Symfony bundle that turns a request's
query string into Doctrine query-builder calls. Endpoints declare which filters
(`Filter`), sorts (`Sort`) and pagination (`Pagination`) they accept.

The service does four things:

- It parses `filter[field][comparison]=value`, `sort[field]=asc|desc` and
  `limit=[offset,]limit` from the main request.
- It rejects any field the declarations do not allow.
- It applies every field to a query builder: a predicate with a fresh bound
  parameter, an ORDER BY clause, or a limit/offset.
- It runs a COUNT(DISTINCT ...) on a clone and reports the total as the
  `pagination-total` header.

Three revisions of that service are modelled side by side:

- **Current `src/` bundle.** `src/Service/*Trait.php`, `src/Input/*` and
  `src/Annotation/*`, plus `Service/FilterTrait.php`, which its services use
  for filters.
- **Older top-level `ApiService`.** `Service/ApiService.php`,
  `Service/PaginationTrait.php`, and `Service/FilterTrait.php` for its filters.
  Its definitions are the older `Annotation/Filter.php`, `Annotation/Sort.php`
  and `Annotation/Pagination.php`, and its older sort field is
  `Input/SortField.php`.
- **Rfc14 bundle.** `Service/Rfc14Service.php`, `Service/FilterFromRequestQuery.php`,
  `Service/SortFromRequestQuery.php`, `Service/PaginationFromRequestQuery.php`,
  `Service/SortTrait.php` and its filter field `Input/FilterField.php`.

Model structure:

- The query builder is a `Doctrine.QueryBuilder` object whose observable state
  is a `QueryState` value.
- The request is a value, `Http.Request`.
- Every service, trait and user-supplied field is a class whose methods change
  its fields as the PHP code does.
- Each method is proved against a pure specification: `Parsing` for the loaders,
  `Allowlist` for the validators, `Input`/`LegacyInput`/`Translation` for the
  effect on the builder, and `Pagination` for the limit grammar.
- Lemmas then state the properties of those specifications.
- Exceptions become `Failure` values that are returned. Each method's contract
  says which state, if any, was written before the throw.

## Model

| member | source | states |
|---|---|---|
| Annotation.NewFilter | src/Annotation/Filter.php:87-99 | every argument is stored as given |
| Annotation.FilterDefaults | src/Annotation/Filter.php:87-99 | a filter declared with only a name allows all nine comparisons, has no enum and no query-builder name, and is applied automatically |
| Annotation.ComparisonConstants | src/Annotation/Filter.php:18-46 | the nine comparison spellings, their order in `ALL_COMPARISONS`, and that they are pairwise distinct |
| Annotation.NewSort | src/Annotation/Sort.php:49-59 | every argument is stored as given |
| Annotation.SortDefaults | src/Annotation/Sort.php:18-20 | the directions are `asc` and `desc`; a sort declared with only a name allows both and is applied automatically |
| Annotation.NewPagination | src/Annotation/Pagination.php:21-27 | `maxEntries` is stored as given |
| LegacyAnnotation.NewLegacyFilter | Annotation/Filter.php:91-103 | every argument is stored as given |
| LegacyAnnotation.NewLegacySort | Annotation/Sort.php:59-69 | every argument is stored as given |
| LegacyAnnotation.AvailableComparisonsConstant | Annotation/Filter.php:21-49 | the public list holds the same nine distinct operators in the same order as the current bundle's |
| LegacyAnnotation.LegacyDefaults | Annotation/Sort.php:21-25 | with no arguments, the older constructors give a nameless definition that allows every comparison or direction |
| Text.Explode | src/Input/FilterField.php:36-43 | `explode(',', s)` always gives at least one piece, and no piece holds the separator; `ImplodeExplode` and `ExplodeImplode` make it the inverse of `Implode` |
| Text.Implode | Service/FilterTrait.php:59-68 | `implode(sep, parts)`: the parts with `sep` between neighbours, "" for no parts; its inverse is `Explode` (`ImplodeExplode`, `ExplodeImplode`) |
| Text.ImplodeExplode | src/Input/FilterField.php:36-43 | joining the parts of `explode` with the separator gives back the original string |
| Text.ExplodeImplode | src/Input/FilterField.php:36-43 | exploding a join of separator-free parts gives back those parts |
| Text.ToLower | src/Input/FilterField.php:104 | `strtolower` keeps the length and lower-cases exactly the ASCII capitals |
| Text.ToInt | src/Service/PaginationTrait.php:88-93 | the `(int)` cast of a `limit` part: an optional `-` or `+`, then the value of the leading decimal digits, and 0 when there are none; `IntStringRoundTrip` makes it the inverse of `IntToString` |
| Text.IntToString | src/Service/PaginationTrait.php:135 | the `(string)` cast of an integer: at least one character, all decimal digits except a leading `-` for negative numbers; `ToInt` reads it back (`IntStringRoundTrip`) |
| Text.IntStringRoundTrip | src/Service/PaginationTrait.php:88-93 | the `(int)` cast of a printed integer is that integer |
| Text.FreshExtension | src/Input/FilterField.php:86-89 | a placeholder starts with the prefix, is longer than it, and is none of the names already taken |
| Headers.HeaderInformationTrait.constructor | Service/HeaderInformationTrait.php:12 | the map starts empty |
| Headers.HeaderInformationTrait.AddHeaderInformation | Service/HeaderInformationTrait.php:18-21 | the key now maps to the value; every other key keeps its presence and value |
| Headers.HeaderInformationTrait.GetHeaderInformation | Service/HeaderInformationTrait.php:26-29 | returns the current map |
| Input.GetValue | src/Input/FilterField.php:36-43 | `in`/`nin` give the comma-separated pieces of the raw value; every other comparison gives the raw value |
| Input.DisplayValue | Service/FilterTrait.php:59 | the value the FilterException message prints, the list imploded with ',', is always the raw value the client sent |
| Input.TargetField | src/Input/FilterField.php:76-84 | a truthy query-builder name is used as it is; otherwise it is `alias.name`; the result is never falsy |
| Input.ApplyFilter | src/Input/FilterField.php:94-164 | the builder effect of `applyToQueryBuilder` with placeholder `p`: the `autoApply` guard, the `\null` literal, the null-inclusive `neq`/`nin`, one bound predicate for the other known comparisons and no change for an unknown one; the lemmas below state each case |
| Input.ManualFilterIsNotApplied | src/Input/FilterField.php:96-98 | a definition with `autoApply = false` leaves the builder unchanged |
| Input.UndeclaredFilterIsApplied | src/Input/FilterField.php:94-98 | a field without a definition still adds one predicate |
| Input.NullLiteralFilter | src/Input/FilterField.php:103-125 | `eq`/`neq` with `\null` in any case add IS [NOT] NULL and bind no parameter |
| Input.NullLiteralExamples | src/Input/FilterField.php:104 | `\NULL` and `\Null` are the null literal; `null` and `\nul` are not |
| Input.NullInclusiveFilter | src/Input/FilterField.php:112-139 | a non-literal `neq`, and `nin`, add "field <> p OR field IS NULL" (or NOT IN ... OR IS NULL) |
| Input.BoundFilterAddsOneParameter | src/Input/FilterField.php:100-163 | every other known comparison adds one predicate and binds exactly one new parameter to `getValue`, keeps every earlier predicate and binding, and changes no other clause |
| Input.BindingFreshKey | src/Input/FilterField.php:86-89 | binding a fresh placeholder adds exactly that key and keeps every other binding |
| Input.UnknownComparisonIsIgnored | src/Input/FilterField.php:102-163 | a comparison outside the nine changes nothing, because the switch has no default branch |
| Input.FilterTouchesOnlyWheresAndParams | src/Input/FilterField.php:94-164 | applying a filter keeps every earlier predicate and changes nothing but the predicates and parameters |
| Input.Matches | src/Input/FilterField.php:171-193 | `eq`/`neq` compare strictly and `in`/`nin` loosely against `getValue`; the four orderings use the given comparison; `like` and unknown comparisons give a FilterException "Unknown comparison" |
| Input.LikeDoesNotMatch | src/Input/FilterField.php:171-193 | `matches` cannot evaluate `like`, although the declarations accept it |
| Input.NotInNegatesIn | src/Input/FilterField.php:179-181 | `nin` is exactly the negation of `in` on the same raw value |
| Input.ApplySort | src/Input/SortField.php:76-92 | the builder effect of the sort field: one ORDER BY on the target for `asc`/`desc` past the `autoApply` guard, otherwise none (`SortAppendsOneOrderBy`, `SortNoOp`) |
| Input.SortAppendsOneOrderBy | src/Input/SortField.php:82-91 | `asc`/`desc` append one ORDER BY on the target field and change nothing else |
| Input.SortNoOp | src/Input/SortField.php:76-92 | any other direction, or `autoApply = false`, leaves the builder as it was |
| Input.UndeclaredSortIsApplied | src/Input/SortField.php:66-80 | a sort without a definition is applied on `alias.name` |
| Input.FilterInputsAt | src/Input/FilterField.php:24-73 | each parsed filter value is the state of the object at the same position |
| Input.FilterInputsConcat | src/Input/FilterField.php:24-73 | the states of concatenated field lists are the concatenated states |
| Input.SortInputsAt | src/Input/SortField.php:30-64 | each parsed sort value is the state of the object at the same position |
| Input.FilterField.constructor | src/Input/FilterField.php:16-22 | a new field has empty name and comparison, an empty value and no definition |
| Input.FilterField.SetName | src/Input/FilterField.php:29-34 | only the name changes, and the object itself is returned |
| Input.FilterField.SetValue | src/Input/FilterField.php:45-50 | only the value changes, and the object itself is returned |
| Input.FilterField.SetComparison | src/Input/FilterField.php:57-62 | only the comparison changes, and the object itself is returned |
| Input.FilterField.SetFilter | src/Input/FilterField.php:69-74 | only the definition changes, and the object itself is returned |
| Input.FilterField.GetUniquePlaceholder | src/Input/FilterField.php:86-89 | `filter_<name>_` followed by a suffix no bound parameter uses |
| Input.FilterField.ApplyToQueryBuilder | src/Input/FilterField.php:94-164 | the builder's new state is `ApplyFilter` of its old state with a placeholder that was fresh in the old parameters |
| Input.SortField.constructor | src/Input/SortField.php:18-28 | a new field has empty name and direction, and no definition |
| Input.SortField.SetName | src/Input/SortField.php:35-40 | only the name changes, and the object itself is returned |
| Input.SortField.SetDirection | src/Input/SortField.php:47-52 | only the direction changes, and the object itself is returned |
| Input.SortField.SetSort | src/Input/SortField.php:59-64 | only the definition changes, and the object itself is returned |
| Input.SortField.ApplyToQueryBuilder | src/Input/SortField.php:76-92 | the builder's new state is `ApplySort` of its old state |
| LegacyInput.GetValueWithin | Input/FilterField.php:50-57 | with any finite stack, `getValue` of `in`/`nin` never returns, because it calls itself; other comparisons return the raw value |
| LegacyInput.LegacyOp | Input/FilterField.php:130-163 | the eight cases of the Rfc14 switch, `eq` to `lteq` without `like`; any other comparison has no case |
| LegacyInput.LegacyWhere | Input/FilterField.php:130-163 | the one predicate the switch appends for a known comparison on the target field, and none otherwise (`Rfc14UnknownBindsOnly`, `ListComparisonsOverflow`) |
| LegacyInput.ApplyRfc14Filter | Input/FilterField.php:126-165 | the predicate, then the binding of `getValue()`, which makes `in`/`nin` fail with a stack overflow (`ApplyFailsWhereGetValueOverflows`, `Rfc14IgnoresAutoApplyAndNull`) |
| LegacyInput.ApplyFailsWhereGetValueOverflows | Input/FilterField.php:126-165 | the Rfc14 apply fails exactly where `getValue` overflows the stack, and otherwise binds what `getValue` returns |
| LegacyInput.ListComparisonsOverflow | Input/FilterField.php:139-146 | `in`/`nin` append their predicate and then fail with a stack overflow before binding |
| LegacyInput.Rfc14IgnoresAutoApplyAndNull | Input/FilterField.php:126-133 | there is no `autoApply` guard and no null literal: `eq` always adds `field = :p` and binds the raw value |
| LegacyInput.Rfc14UnknownBindsOnly | Input/FilterField.php:130-164 | `like` and unknown comparisons add no predicate but still bind the parameter |
| LegacyInput.LikeDiffersFromCurrentField | Input/FilterField.php:130-164 | `like` is a LIKE predicate in the current field but only a stray parameter in the Rfc14 field |
| LegacyInput.ApplyLegacySort | Input/SortField.php:107-123 | the older sort field: no change without a definition, otherwise the current sort effect (`LegacySortWithoutDefinitionIsDropped`, `LegacySortAgreesWithDefinition`) |
| LegacyInput.LegacySortWithoutDefinitionIsDropped | Input/SortField.php:107-111 | the older sort field drops a sort that has no definition |
| LegacyInput.CurrentSortAppliesUndeclared | src/Input/SortField.php:76-80 | the current sort field applies that same undeclared sort where the older one drops it |
| LegacyInput.LegacySortAgreesWithDefinition | Input/SortField.php:107-123 | with a definition, both revisions of the sort field have the same effect |
| LegacyInput.Rfc14FilterInputsAt | Input/FilterField.php:32-103 | each parsed Rfc14 filter value is the state of the object at the same position |
| LegacyInput.Rfc14FilterField.constructor | Input/FilterField.php:12-27 | a new field has no definition; the name, value and comparison, null in PHP, start as empty strings |
| LegacyInput.Rfc14FilterField.SetName | Input/FilterField.php:41-45 | only the name changes, and the object itself is returned |
| LegacyInput.Rfc14FilterField.SetValue | Input/FilterField.php:63-67 | only the value changes, and the object itself is returned |
| LegacyInput.Rfc14FilterField.SetComparison | Input/FilterField.php:81-85 | only the comparison changes, and the object itself is returned |
| LegacyInput.Rfc14FilterField.SetFilter | Input/FilterField.php:99-103 | only the definition changes, and the object itself is returned |
| LegacyInput.Rfc14FilterField.ApplyToQueryBuilder | Input/FilterField.php:118-165 | the builder's new state and the failure are `ApplyRfc14Filter` of the old state with a placeholder that was fresh there |
| LegacyInput.LegacySortField.constructor | Input/SortField.php:20-30 | a new field has no definition; the name and direction, null in PHP, start as empty strings |
| LegacyInput.LegacySortField.SetName | Input/SortField.php:45-50 | only the name changes, and the object itself is returned |
| LegacyInput.LegacySortField.SetDirection | Input/SortField.php:65-70 | only the direction changes, and the object itself is returned |
| LegacyInput.LegacySortField.SetSort | Input/SortField.php:85-90 | only the definition changes, and the object itself is returned |
| LegacyInput.LegacySortField.ApplyToQueryBuilder | Input/SortField.php:107-123 | the builder's new state is `ApplyLegacySort` of its old state |
| Allowlist.FilterByName | Service/FilterTrait.php:158-167 | the result is the definition at the first index with that name, or none when no definition has it |
| Allowlist.FilterByNameIsFirst | Service/FilterTrait.php:158-167 | the definition at the first same-name index is the one returned |
| Allowlist.SortByName | src/Service/SortTrait.php:80-89 | the result is the sort definition at the first index with that name, or none |
| Allowlist.SortByNameIsFirst | src/Service/SortTrait.php:80-89 | the sort definition at the first same-name index is the one returned |
| Allowlist.ComparisonAllowed | Service/FilterTrait.php:111-114 | `checkComparison`: the definition lists the field's comparison |
| Allowlist.EnumAllowed | Service/FilterTrait.php:126-149 | `checkEnum`: an empty enum accepts anything, a list value needs every element in the enum, a scalar value must be in it (`EnumOfJoinedValues`) |
| Allowlist.IsAllowedFilter | Service/FilterTrait.php:82-101 | the current rule: the first same-name definition decides, by comparison and enum; no definition rejects (`CurrentFilterRuleIsStricter`, `DistinctNamesFilterRule`, `ShadowedDefinitionDiffers`) |
| Allowlist.IsAllowedFilterAnyDefinition | Service/FilterFromRequestQuery.php:67-80 | the Rfc14 rule: some same-name definition lists the comparison, and enums play no part (`EnumOnlyInCurrentRule`) |
| Allowlist.IsAllowedSort | src/Service/SortTrait.php:62-75 | some same-name sort definition lists the direction (`SortScanContinues`) |
| Allowlist.EnumOfJoinedValues | Service/FilterTrait.php:126-149 | a list filter written as comma-joined values passes a non-empty enum iff every value is in it |
| Allowlist.CurrentFilterRuleIsStricter | Service/FilterTrait.php:82-101 | whatever the current filter rule accepts, the Rfc14 rule accepts too |
| Allowlist.DistinctNamesFilterRule | Service/FilterTrait.php:82-101 | with distinct definition names, the current rule is the Rfc14 rule plus the enum check |
| Allowlist.ShadowedDefinitionDiffers | Service/FilterTrait.php:84-99 | a second same-name definition is never consulted by the current rule, but is by the Rfc14 rule |
| Allowlist.EnumOnlyInCurrentRule | Service/FilterFromRequestQuery.php:67-80 | a value outside the enum is rejected by the current rule and accepted by the Rfc14 rule |
| Allowlist.SortScanContinues | src/Service/SortTrait.php:62-75 | a same-name sort definition that rejects the direction does not hide a later one that allows it |
| Allowlist.FilterHint | Service/FilterTrait.php:60-67 | one definition's hint: its name, its comparisons, and its values only when the enum is not empty |
| Allowlist.FilterHints | Service/FilterTrait.php:60-68 | one hint per definition, in the order of the definitions |
| Allowlist.FilterMessage | Service/FilterTrait.php:54-70 | the current FilterException message: name, comparison, the raw value (`DisplayValue`) and the hints of every definition; `ValidateFilters` throws it for the first disallowed field |
| Allowlist.ListHint | src/Service/SortTrait.php:50-52 | a name followed by its allowed comparisons or directions joined with ", " |
| Allowlist.Rfc14FilterHints | Service/FilterFromRequestQuery.php:54-56 | one `ListHint` per definition, with its comparisons, in order |
| Allowlist.Rfc14FilterMessage | Service/Rfc14Service.php:83-91 | the Rfc14 FilterException message: name, comparison and the hints, no value; `ValidateRfc14Filters` throws it for the first disallowed field |
| Allowlist.SortHints | src/Service/SortTrait.php:50-52 | one `ListHint` per sort definition, with its directions, in order |
| Allowlist.SortMessage | src/Service/SortTrait.php:45-54 | the SortException message: name, direction and the hints; `ValidateSorts` throws it for the first disallowed sort |
| Allowlist.FirstDisallowedFilter | Service/FilterTrait.php:52-72 | none iff every field is allowed; otherwise the index of the first disallowed field |
| Allowlist.ValidateFilters | Service/FilterTrait.php:48-73 | passes iff every field is allowed; otherwise a FilterException naming the first disallowed field |
| Allowlist.ValidateFiltersFailsAt | Service/FilterTrait.php:52-72 | the first disallowed field is the one reported |
| Allowlist.FirstDisallowedRfc14Filter | Service/FilterFromRequestQuery.php:43-61 | none iff every field is allowed by some same-name definition; otherwise the first index that is not |
| Allowlist.ValidateRfc14Filters | Service/FilterFromRequestQuery.php:43-61 | passes iff every field is allowed; otherwise a FilterException about the first disallowed field |
| Allowlist.ValidateRfc14FiltersFailsAt | Service/Rfc14Service.php:77-95 | the first disallowed field is the one reported |
| Allowlist.FirstDisallowedSort | src/Service/SortTrait.php:43-56 | none iff every sort is allowed; otherwise the index of the first disallowed sort |
| Allowlist.ValidateSorts | src/Service/SortTrait.php:39-57 | passes iff every sort is allowed; otherwise a SortException naming the first disallowed sort |
| Allowlist.ValidateSortsFailsAt | Service/SortTrait.php:34-52 | the first disallowed sort is the one reported |
| Allowlist.CurrentValidationIsStricter | Service/FilterTrait.php:48-73 | when the current validator passes a field list, the Rfc14 validator passes it too |
| Allowlist.FilterFieldIndex | Service/FilterTrait.php:257-272 | none iff no field matches the name (and the comparison, if given); otherwise the first match |
| Allowlist.SortFieldIndex | src/Service/SortTrait.php:140-149 | none iff no sort field has the name; otherwise the first that does |
| Parsing.GroupFilters | Service/FilterTrait.php:186-194 | one field per (comparison, value) entry of a group, in order, each carrying the group's name |
| Parsing.QueryFilters | Service/FilterTrait.php:172-197 | every parsed field carries the first definition with its name |
| Parsing.QueryFiltersStep | Service/FilterTrait.php:185-195 | one more group appends exactly its own fields |
| Parsing.QueryFiltersSound | Service/FilterTrait.php:184-195 | every parsed field comes from one entry of an array group with the field's name |
| Parsing.QueryFiltersComplete | Service/FilterTrait.php:184-195 | every entry of every array group yields a field, bound to the first same-name definition |
| Parsing.AttributeFilters | Service/FilterTrait.php:202-219 | every attribute field is an `eq` field whose name has a definition, and it carries that definition |
| Parsing.AttributeFiltersSound | Service/FilterTrait.php:205-218 | every attribute field comes from a route attribute with that key and value |
| Parsing.AttributeFiltersComplete | Service/FilterTrait.php:205-218 | every attribute that names a definition becomes an `eq` field with the attribute's value |
| Parsing.UndeclaredAttributesIgnored | Service/FilterTrait.php:205-218 | attributes that name no definition add nothing |
| Parsing.RequestFilters | Service/FilterTrait.php:226-235 | the query fields come first, followed by the attribute fields |
| Parsing.SameFieldsWithoutDeclaredAttributes | Service/FilterFromRequestQuery.php:97-111 | when no route attribute names a definition, the current trait parses exactly what the Rfc14 services parse |
| Parsing.SortFields | src/Service/SortTrait.php:94-113 | one sort field per key of the sort group, in order, each bound to the first same-name definition |
| Parsing.RequestSorts | src/Service/SortTrait.php:98-112 | the `SortFields` of the sort group, and no fields when the group is missing or not an array; `SortTrait.LoadSortsFromQuery` stores exactly these |
| Translation.ApplyFilters | Service/FilterTrait.php:289-291 | the filter effects in request order, each with its own placeholder (`FiltersTouchOnlyWheresAndParams`, `FreshPlaceholdersKeepParameters`) |
| Translation.FiltersTouchOnlyWheresAndParams | Service/FilterTrait.php:281-292 | applying all filters keeps every earlier predicate and changes nothing but predicates and parameters |
| Translation.FreshPlaceholdersKeepParameters | Service/FilterTrait.php:289-291 | with fresh placeholders, no filter overwrites a parameter bound before |
| Translation.ApplySorts | src/Service/SortTrait.php:164-166 | the sort effects in request order (`SortsAppendClauses`) |
| Translation.SortsAppendClauses | src/Service/SortTrait.php:164-166 | applying the sorts appends exactly their clauses in query-string order and changes nothing else |
| Translation.ApplyRfc14Filters | Service/Rfc14Service.php:255-258 | the Rfc14 filter effects in order until the first failure, which ends the loop with that field's predicate added (`Rfc14FiltersFailOnLists`, `Rfc14FailureSticks`, `Rfc14FiltersStep`) |
| Translation.Rfc14FiltersFailOnLists | Service/Rfc14Service.php:255-258 | applying Rfc14 filters fails iff some field uses `in`/`nin`, and then with a stack overflow |
| Translation.Rfc14FailureSticks | Service/FilterFromRequestQuery.php:157-162 | after the first failure nothing more is applied; later fields and placeholders do not matter |
| Translation.Rfc14FiltersStep | Service/FilterFromRequestQuery.php:157-162 | one more field after a failure-free prefix is that field's `ApplyRfc14Filter` on the prefix's state |
| Translation.Rfc14PadAfterFailure | Service/FilterFromRequestQuery.php:157-162 | placeholders for fields never reached can be anything |
| ApiFilter.NewFilterField | Service/FilterTrait.php:187-192 | a fresh field with the given name, value, comparison and definition |
| ApiFilter.ApplyFields | Service/FilterTrait.php:289-291 | the builder ends in `ApplyFilters` of its old state over the fields' states, each placeholder fresh when generated |
| ApiFilter.FindFilter | Service/FilterTrait.php:158-167 | the first same-name definition, or none |
| ApiFilter.FilterTrait.constructor | Service/FilterTrait.php:29-39 | nothing parsed and no definitions |
| ApiFilter.FilterTrait.GetFilterByName | Service/FilterTrait.php:158-167 | the first registered definition with that name |
| ApiFilter.FilterTrait.CheckComparison | Service/FilterTrait.php:111-114 | true iff the definition lists the field's comparison |
| ApiFilter.FilterTrait.CheckEnum | Service/FilterTrait.php:126-149 | true iff the enum is empty, or every value (every list element for `in`/`nin`) is in it |
| ApiFilter.FilterTrait.IsAllowedFilterField | Service/FilterTrait.php:82-101 | true iff the first same-name definition allows the comparison and the value |
| ApiFilter.FilterTrait.GroupFields | Service/FilterTrait.php:186-194 | the new objects' states are the group's fields |
| ApiFilter.FilterTrait.QueryFields | Service/FilterTrait.php:174-196 | the new objects' states are the query fields of the request |
| ApiFilter.FilterTrait.AttributeFields | Service/FilterTrait.php:202-219 | the new objects' states are the attribute fields of the request |
| ApiFilter.FilterTrait.LoadFiltersFromQuery | Service/FilterTrait.php:172-197 | the query fields are appended to the parsed list |
| ApiFilter.FilterTrait.LoadFiltersFromAttributes | Service/FilterTrait.php:202-219 | the attribute fields are appended to the parsed list |
| ApiFilter.FilterTrait.GetFilteredFields | Service/FilterTrait.php:226-235 | parses on the first call only: the request's query fields followed by its attribute fields |
| ApiFilter.FilterTrait.FindField | Service/FilterTrait.php:259-271 | the object at `FilterFieldIndex`, or none |
| ApiFilter.FilterTrait.GetFilteredField | Service/FilterTrait.php:257-272 | the first parsed field with the name (and the comparison, if given), or none |
| ApiFilter.FilterTrait.HasFilteredField | Service/FilterTrait.php:244-247 | true iff some parsed field has the name |
| ApiFilter.FilterTrait.CheckFields | Service/FilterTrait.php:52-72 | the outcome is `ValidateFilters` over the fields' states |
| ApiFilter.FilterTrait.HandleAllowedFilters | Service/FilterTrait.php:48-73 | stores the definitions, then passes iff every parsed field is allowed, otherwise fails on the first disallowed one |
| ApiFilter.FilterTrait.ApplyFilteredFieldsToQueryBuilder | Service/FilterTrait.php:281-292 | without the ORM, a MissingDependencyException and nothing changes; otherwise every parsed filter in order, each with a fresh placeholder |
| ApiSort.NewSortField | src/Service/SortTrait.php:105-112 | a fresh field with the given name, direction and definition |
| ApiSort.ApplySortFields | src/Service/SortTrait.php:164-166 | the builder ends in `ApplySorts` of its old state over the fields' states |
| ApiSort.FindSortField | src/Service/SortTrait.php:142-148 | the object at `SortFieldIndex`, or none |
| ApiSort.FindSort | src/Service/SortTrait.php:80-89 | the first same-name sort definition, or none |
| ApiSort.AllowsSortField | src/Service/SortTrait.php:62-75 | true iff some same-name definition lists the direction |
| ApiSort.SortTrait.constructor | src/Service/SortTrait.php:20-30 | nothing parsed and no definitions |
| ApiSort.SortTrait.GetSortByName | src/Service/SortTrait.php:80-89 | the first registered sort definition with that name |
| ApiSort.SortTrait.IsAllowedSortField | src/Service/SortTrait.php:62-75 | true iff some same-name definition lists the direction |
| ApiSort.SortTrait.QuerySortFields | src/Service/SortTrait.php:96-112 | the new objects' states are the request's sort fields |
| ApiSort.SortTrait.LoadSortsFromQuery | src/Service/SortTrait.php:94-113 | the parsed list becomes the request's sort fields |
| ApiSort.SortTrait.GetSortedFields | src/Service/SortTrait.php:120-127 | parses on the first call only |
| ApiSort.SortTrait.GetSortedField | src/Service/SortTrait.php:140-149 | the first parsed sort field with the name, or none |
| ApiSort.SortTrait.HasSortedField | src/Service/SortTrait.php:132-135 | true iff some parsed sort field has the name |
| ApiSort.SortTrait.CheckSortFields | src/Service/SortTrait.php:43-56 | the outcome is `ValidateSorts` over the fields' states |
| ApiSort.SortTrait.HandleAllowedSorts | src/Service/SortTrait.php:39-57 | stores the definitions, then passes iff every parsed sort is allowed, otherwise fails on the first disallowed one |
| ApiSort.SortTrait.ApplySortedFieldsToQueryBuilder | src/Service/SortTrait.php:156-167 | without the ORM, a MissingDependencyException and nothing changes; otherwise every parsed sort in order |
| ApiSort.SortTrait.ApplySortedFields | Service/SortTrait.php:150-155 | every parsed sort in order, with no dependency check |
| Pagination.ParseLimit | src/Service/PaginationTrait.php:88-96 | one part sets the limit, two parts set offset and limit, more parts are refused (`LimitOnly`, `OffsetAndLimit`, `MoreThanTwoPartsRefused`) |
| Pagination.ParsePagination | src/Service/PaginationTrait.php:78-100 | a `limit` needs a registered Pagination; without `limit` the traits fall back to `maxEntries` (`LimitNeedsPagination`, `AbsentLimit`, `ParseFailures`, `ParseIsIdempotent`) |
| Pagination.ResolvedLimit | src/Service/PaginationTrait.php:119-124 | the limit `getPaginationLimit` returns: the stored one, else `maxEntries` where the trait falls back, else none (`ClientLimitIsNotCapped`) |
| Pagination.ResolvedOffset | src/Service/PaginationTrait.php:107-112 | the offset `getPaginationOffset` returns: the stored one, else 0 |
| Pagination.TotalHeader | src/Service/PaginationTrait.php:131-136 | the `pagination-total` header value: the total as a string in the current revision, the integer itself in the older one |
| Pagination.LimitOnly | src/Service/PaginationTrait.php:88-90 | `limit=N` sets the limit to N and leaves the offset alone |
| Pagination.OffsetAndLimit | src/Service/PaginationTrait.php:91-93 | `limit=O,N` sets offset O and limit N |
| Pagination.MoreThanTwoPartsRefused | src/Service/PaginationTrait.php:94-96 | three or more comma-separated parts are refused with the format message |
| Pagination.ClientLimitIsNotCapped | src/Service/PaginationTrait.php:88-98 | a client limit above `maxEntries` is taken as it is |
| Pagination.ParseIsIdempotent | src/Service/PaginationTrait.php:78-100 | parsing again what parsing produced changes nothing, so every getter may parse again |
| Pagination.LimitNeedsPagination | src/Service/PaginationTrait.php:83-86 | a `limit` parameter without a registered Pagination is refused |
| Pagination.AbsentLimit | src/Service/PaginationTrait.php:97-98 | without `limit`, the current traits fall back to `maxEntries` and the Rfc14 services keep the limit unset |
| Pagination.ParseFailures | src/Service/PaginationTrait.php:78-100 | parsing fails iff `limit` is given and there is either no Pagination or more than two parts |
| Pagination.PaginationTrait.constructor | src/Service/PaginationTrait.php:21-31 | no pagination, no offset, limit or total |
| Pagination.PaginationTrait.HandleIsPaginatable | src/Service/PaginationTrait.php:36-39 | registers the Pagination and changes nothing else |
| Pagination.PaginationTrait.ParsePaginationFields | src/Service/PaginationTrait.php:78-100 | on error the fields are unchanged; otherwise they are the parse result |
| Pagination.PaginationTrait.GetPaginationOffset | src/Service/PaginationTrait.php:107-112 | parses, then returns the stored offset or 0 |
| Pagination.PaginationTrait.GetPaginationLimit | src/Service/PaginationTrait.php:119-124 | parses, then returns the stored limit, else `maxEntries`, else null |
| Pagination.PaginationTrait.SetPaginationTotal | src/Service/PaginationTrait.php:131-136 | stores the total and sets header `pagination-total` (a string in `src/`, the integer in the older copy) |
| Pagination.PaginationTrait.GetPaginationTotal | src/Service/PaginationTrait.php:141-144 | the stored total; before any is set, an uninitialised-property error in `src/` and null in the older copy |
| Pagination.PaginationTrait.ApplyPaginationToQueryBuilder | src/Service/PaginationTrait.php:48-71 | no ORM: MissingDependencyException and no change. No pagination: no change. Otherwise: distinct, count on a COUNT(DISTINCT alias) clone, total set only when the count succeeds, then the parse error or the resolved limit and offset |
| ApiServices.ApiService.constructor | src/Service/ApiService.php:20-24 | fresh filter, sort and pagination traits sharing the request and the header service, all unparsed |
| ApiServices.ApiService.ApplyToQueryBuilder | src/Service/ApiService.php:31-42 | no ORM: MissingDependencyException and nothing changed; otherwise filters, then sorts, then the pagination effect on the sorted state; the registered filter and sort definitions stay as they were |
| ApiServices.CountSeesFiltersAndSorts | Service/ApiService.php:49-60 | the count handed to pagination after `ApplyToQueryBuilder` applied the filters and sorts sees exactly the filters' predicates and parameters, keeps the earlier predicates, has the earlier ORDER BYs followed by the sorts' clauses, is distinct, and selects `COUNT(DISTINCT alias)` |
| Rfc14Components.NewRfc14FilterField | Service/FilterFromRequestQuery.php:100-108 | a fresh Rfc14 field with the given name, value, comparison and definition |
| Rfc14Components.ApplyRfc14Next | Service/FilterFromRequestQuery.php:159-161 | one more field after a failure-free prefix extends `ApplyRfc14Filters`, with a fresh placeholder |
| Rfc14Components.ApplyRfc14Fields | Service/FilterFromRequestQuery.php:157-162 | the builder state and failure are `ApplyRfc14Filters` of the fields' states, stopping at the first failure |
| Rfc14Components.FindRfc14Field | Service/FilterFromRequestQuery.php:142-151 | the first field object with the name, or none |
| Rfc14Components.CheckSortFieldsCallingGetComparison | Service/SortFromRequestQuery.php:43-61 | passes iff every sort is allowed; a disallowed sort fails on the undefined `getComparison` call, not with a SortException |
| Rfc14Components.FilterFromRequestQuery.constructor | Service/FilterFromRequestQuery.php:32-35 | nothing parsed and no definitions |
| Rfc14Components.FilterFromRequestQuery.GetFilterByName | Service/FilterFromRequestQuery.php:86-95 | the first registered definition with that name |
| Rfc14Components.FilterFromRequestQuery.IsAllowedField | Service/FilterFromRequestQuery.php:67-80 | true iff some same-name definition lists the comparison; no enum check |
| Rfc14Components.FilterFromRequestQuery.GroupFields | Service/FilterFromRequestQuery.php:101-109 | the new objects' states are the group's fields |
| Rfc14Components.FilterFromRequestQuery.QueryFields | Service/FilterFromRequestQuery.php:97-111 | the new objects' states are the request's query fields |
| Rfc14Components.FilterFromRequestQuery.LoadFiltersFromQuery | Service/FilterFromRequestQuery.php:97-111 | resets the list and fills it with the query fields |
| Rfc14Components.FilterFromRequestQuery.GetAll | Service/FilterFromRequestQuery.php:116-123 | parses on the first call only |
| Rfc14Components.FilterFromRequestQuery.Get | Service/FilterFromRequestQuery.php:142-151 | the first parsed field with that name, or none |
| Rfc14Components.FilterFromRequestQuery.Has | Service/FilterFromRequestQuery.php:131-134 | true iff some parsed field has the name |
| Rfc14Components.FilterFromRequestQuery.CheckFields | Service/FilterFromRequestQuery.php:47-60 | the outcome is `ValidateRfc14Filters` over the fields' states |
| Rfc14Components.FilterFromRequestQuery.HandleAllowed | Service/FilterFromRequestQuery.php:43-61 | stores the definitions, then passes iff every parsed field is allowed, otherwise fails on the first disallowed one |
| Rfc14Components.FilterFromRequestQuery.ApplyToQueryBuilder | Service/FilterFromRequestQuery.php:157-162 | every parsed field in order, up to and including the first one that fails |
| Rfc14Components.SortFromRequestQuery.constructor | Service/SortFromRequestQuery.php:32-35 | nothing parsed and no definitions |
| Rfc14Components.SortFromRequestQuery.GetSortByName | Service/SortFromRequestQuery.php:86-95 | the first registered sort definition with that name |
| Rfc14Components.SortFromRequestQuery.IsAllowedField | Service/SortFromRequestQuery.php:67-80 | true iff some same-name definition lists the direction |
| Rfc14Components.SortFromRequestQuery.LoadSortsFromQuery | Service/SortFromRequestQuery.php:97-106 | a field is built per requested sort but none is kept: the list is empty |
| Rfc14Components.SortFromRequestQuery.GetAll | Service/SortFromRequestQuery.php:111-118 | always the empty list |
| Rfc14Components.SortFromRequestQuery.HandleAllowed | Service/SortFromRequestQuery.php:43-61 | stores the definitions and, with nothing parsed, always passes |
| Rfc14Components.SortFromRequestQuery.Get | Service/SortFromRequestQuery.php:137-146 | always null |
| Rfc14Components.SortFromRequestQuery.Has | Service/SortFromRequestQuery.php:126-129 | always false |
| Rfc14Components.SortFromRequestQuery.ApplyToQueryBuilder | Service/SortFromRequestQuery.php:152-157 | the builder is unchanged |
| Rfc14Components.PaginationFromRequestQuery.constructor | Service/PaginationFromRequestQuery.php:40-43 | no pagination, no offset, limit or total |
| Rfc14Components.PaginationFromRequestQuery.HandleIsPaginatable | Service/PaginationFromRequestQuery.php:50-53 | registers the Pagination and changes nothing else |
| Rfc14Components.PaginationFromRequestQuery.ParsePaginationFields | Service/PaginationFromRequestQuery.php:58-77 | on error the fields are unchanged; otherwise they are the parse result, with no `maxEntries` fallback |
| Rfc14Components.PaginationFromRequestQuery.GetOffset | Service/PaginationFromRequestQuery.php:83-88 | parses, then returns the stored offset or 0 |
| Rfc14Components.PaginationFromRequestQuery.GetLimit | Service/PaginationFromRequestQuery.php:94-99 | parses, then returns the stored limit, which stays null without `limit` |
| Rfc14Components.PaginationFromRequestQuery.SetTotal | Service/PaginationFromRequestQuery.php:106-109 | stores the total and changes nothing else |
| Rfc14Components.PaginationFromRequestQuery.GetTotal | Service/PaginationFromRequestQuery.php:114-117 | the stored total, null until set |
| Rfc14Components.PaginationFromRequestQuery.ApplyToQueryBuilder | Service/PaginationFromRequestQuery.php:125-133 | counts a COUNT(DISTINCT alias) clone with no distinct on the query; a failing count stops with nothing changed; otherwise the total is stored, then the parse error or the limit and offset |
| Rfc14.Rfc14Service.constructor | Service/Rfc14Service.php:66-69 | fresh filter, sort and pagination parts over the request, all unparsed |
| Rfc14.Rfc14Service.ApplySortsAndPagination | Service/Rfc14Service.php:260-273 | the parsed sorts in order, then the count, limit and offset only when a Pagination is registered; the registered sort definitions stay as they were |
| Rfc14.Rfc14Service.ApplyToQueryBuilder | Service/Rfc14Service.php:253-274 | the filters up to the first failure, which stops everything; otherwise the sorts, then the pagination when registered; the registered filter and sort definitions stay as they were |

## Left out

- PHP warnings are not modelled: a `foreach` over a missing or non-array group, a property read on a null definition, and the like. The model follows what the code does after the warning: no iteration, or a null value.
- Allowlist.EnumAllowed: `in_array` compares loosely, so a numeric value such as "01" passes an enum holding "1"; the model compares strings exactly, because PHP's loose string/number comparison is not modelled.
- Input.Matches: PHP's loose `in_array` comparison and the ordering operators on mixed values are a `compare` parameter, because PHP's loose string/number comparison is not modelled.
- Text.ToInt: reads an optional `-` or `+` and the leading decimal digits, as `(int)` does for plain numeric strings; leading whitespace, exponents and overflow to float are not modelled.
- Query values are strings and keys unique: integer-keyed arrays, array-valued `limit` and repeated keys are not modelled.
- Input.FilterField.GetUniquePlaceholder: `sha1(uniqid('', true))` (and `uniqid()` in the Rfc14 field) is randomness; the model keeps only its purpose, a name no parameter already uses, which is stated weaker than a hash.
- The count query is an oracle `count: QueryState -> Option<int>` (None: it threw), because executing SQL is outside the model. Doctrine's QueryBuilder is reduced to the clauses the bundle writes.
- `class_exists(QueryBuilder::class)` is the `ormInstalled` parameter; the request stack (`getMainRequest`, `getMasterRequest`, `createFromGlobals`) is the `request` value given to each constructor.
- The Rfc14 bundle's own Filter, Sort and Pagination annotation classes are not part of this model; the `Annotation.Filter`, `Annotation.Sort` and `Annotation.Pagination` records stand for them, built with the older defaults of `LegacyAnnotation` where those apply.
- The SortField of the Rfc14 bundle is not part of this model; the Rfc14 services apply sorts with `src/Input/SortField.php` semantics.
- The HeaderInformation service of the header bundle is not part of this model; `Headers.HeaderInformationTrait` stands for it.
- ApiServices.ApiService: the sort trait the older `Service/ApiService.php` uses is not part of this model, so both revisions sort with `ApiSort.SortTrait` and `src/Input/SortField.php`. With the older `Input/SortField.php` a sort without a definition would be dropped (`LegacyInput.ApplyLegacySort`).
- PHP traits mixed into one class are modelled as separate objects that the service holds and calls.
- Input.FilterField.constructor, Input.SortField.constructor, LegacyInput.Rfc14FilterField.constructor, LegacyInput.LegacySortField.constructor: PHP starts the value, name and direction as null and leaves the typed `$filter` uninitialised. The older fields' untyped properties all start as null. The model starts them as empty strings and no definition, because every loader sets all of them before any read.
- The loaders' field objects are fresh in PHP; the contracts state their contents, not their freshness.
- Rfc14Components.FilterFromRequestQuery: its untyped `$filters` starts as null, which iterates like an empty list; the model starts it as `[]`.
- Annotation readers, the API describer, the event listeners, the parameter converters, the repositories and the bundle classes are context, not core, and are not modelled.
