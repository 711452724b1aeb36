# Type-driven test-data synthesizer and client-method context, in Dafny

This project models the core of a Python code generator for HTTP API clients. It covers three parts.

- **Data generator.** It produces random instances of pydantic models from their type annotations.
  - **Monolithic form.** Covers `_TypeAnalyzer`, the name-driven `_SmartFieldGenerator`, the primitive and container generators, and `_ModelGenerator`. It also covers the `Annotated` string handler, `_FallbackGenerator`, `_ValueDispatcher`, and the stateful builder `GenerateData`.
  - **Plugin form.** Covers the container, pydantic-model, annotated, smart-field, special-type, primitive and enum generators.
- **Client-method context.** From an `Endpoint`, `MethodContext.from_endpoint` derives the parameter lists, the HTTP-call text and the return statement of a generated client method.
- **Service name.** `SwaggerLoader.get_service_name` slugifies an API title.

How the model represents the Python:

- **Types.** Python type annotations are a closed datatype `Ty`. It covers:
  - the primitive-table types;
  - `Union` (which includes `Optional`);
  - `Annotated`;
  - list, dict and set containers with their `get_args`;
  - enumerations;
  - root models;
  - models, looked up by name in a schema of field tables;
  - forward references;
  - opaque classes, which carry their `__name__` and `str()`.
- **Randomness.** `random`, Faker, `uuid4` and the clock read cells of a *tape* (`nat -> nat`). A position is threaded through every call, so the model is a deterministic function of the tape.
  - Each call consumes one cell.
  - `fake.pystr(n)` consumes `n` cells.
  - The primitive `Any` consumes four cells.
  - Faker, clock, uuid and float outputs are opaque tokens tagged with their provider.
- **Exceptions.** A generator returns `Done(value, next)` or `Raised(error, next)`.
- **`GenerateData`.** It is a class whose `data` dictionary, smart-generation flag and tape position are updated in place.
  - `_fill_fields` is a `while` loop proved against the recursive specification `Dispatcher.FillFrom`.
  - `_handle_string_constraints`, `from_endpoint` and `_generate_http_call` are also loops, each proved against a function.

Main results:

- **Soundness.** Every value the dispatcher returns conforms to its type, at every depth (`Conformance.DispatchSound`). This covers:
  - container sizes of one or two;
  - empty containers and `None` models at the depth limit;
  - enum members;
  - constrained-string lengths, as the intended `Annotated` string handler draws them (see "## Left out");
  - smart values for recognised field names;
  - the fallback's special values.
- **Totality.** Over a schema whose every reachable leaf has a generator and whose every set element type is hashable, the dispatcher never raises (`Totality.DispatchTotal`). This holds for the intended `Annotated` string handler; as written, the source raises `TypeError` on every `Annotated[str, ...]` with metadata that reaches that handler (see "## Findings").
- **Builder.** The field filler keeps caller-pinned keys, fills exactly the fields the mode selects, and stops at the first exception (`Builder.FillKeys`).
- **Conversion to a dict.** `_convert_to_dict` returns a value without config models unchanged (`Builder.ConvertKeepsPlain`). Wherever config models sit only where it looks, it equals a conversion that reaches every depth, so no config model is left (`Builder.ConvertMatchesDeep`). It does not look inside a list nested in a list, and a config model there is kept (`Builder.NestedListKeepsConfigModel`).
- **Client-method context.** The two parameter lists declare each path and query parameter once, under its own name, plus exactly one extra entry (`DataModels.ParameterNames`). For a non-GET method the payload sits in exactly one list, and the call passes it exactly when it is required.
- **Service name.** The slug is well formed and idempotent, and it keeps the title's letters and digits in order. A run of other characters between letters or digits becomes exactly one `_` (`ServiceName.SeparatorRunBecomesUnderscore`).

## Model

| member | source | states |
|---|---|---|
| Types.RandInt | src/my_codegen/pydantic_utils/data_generator_pydantic.py:193-194 | `random.randint(lo, hi)` lies within `[lo, hi]` |
| Types.RandIntCovers | src/my_codegen/pydantic_utils/data_generator_pydantic.py:193-194 | every value of `[lo, hi]` is drawn by some state of the random source |
| TypeAnalyzer.FirstNotNone | src/my_codegen/pydantic_utils/data_generator_pydantic.py:31-35 | `next(a for a in args if a is not NoneType)`: the first non-None argument, and only None arguments before it |
| TypeAnalyzer.ExtractBaseType | src/my_codegen/pydantic_utils/data_generator_pydantic.py:24-35 | a non-Optional type is returned unchanged; an Optional gives its first non-None argument, a strictly smaller type |
| SmartField.FirstPattern | src/my_codegen/pydantic_utils/data_generator_pydantic.py:176-178 | the first pattern, in table order, that occurs in the lowered name; none only when no pattern occurs |
| SmartField.Lookup | src/my_codegen/pydantic_utils/data_generator_pydantic.py:168-181 | an exact key wins over every pattern; otherwise the first occurring pattern; a generator is found iff the name is an exact key or holds a pattern |
| SmartField.GenerateSmartValue | src/my_codegen/pydantic_utils/data_generator_pydantic.py:168-181 | always yields a value and consumes exactly one draw |
| SmartField.SmartValueNeverFallsBack | src/my_codegen/pydantic_utils/data_generator_pydantic.py:151-181 | `can_generate_smart_value(name, str)` holds iff `generate_smart_value` does not reach its text fallback |
| Primitives.PrimitiveValue | src/my_codegen/pydantic_utils/data_generator_pydantic.py:185-218 | each primitive-table entry returns a value of its kind (int in 1..1000, bool, text, tomorrow's date/date-time, uuid, float, or for `Any` a word, int or float), consuming one draw (four for `Any`) |
| Primitives.BoolBothPossible | src/my_codegen/pydantic_utils/data_generator_pydantic.py:201-202 | both `True` and `False` are possible |
| Primitives.ChooseMember | src/my_codegen/pydantic_utils/data_generator_pydantic.py:282-283 | `random.choice(list(enum))` returns a member iff the enum has members, and raises `IndexError` otherwise |
| Primitives.EveryMemberPossible | src/my_codegen/pydantic_utils/data_generator_pydantic.py:282-283 | every member is a possible choice |
| StringConstraints.MinimumLastWins | src/my_codegen/pydantic_utils/data_generator_pydantic.py:301-315 | the minimum length is the last metadata item's `min_length`, or 1 when none gives one |
| StringConstraints.MaximumLastWins | src/my_codegen/pydantic_utils/data_generator_pydantic.py:301-315 | the maximum length is the last metadata item's `max_length`, or 20 when none gives one |
| StringConstraints.PyStr | src/my_codegen/pydantic_utils/data_generator_pydantic.py:318 | `fake.pystr(n, n)` has exactly `n` letters |
| StringConstraints.ConstrainedString | src/my_codegen/pydantic_utils/data_generator_pydantic.py:301-318 | a string of letters whose length lies within the bounds when they are ordered, and is 1 otherwise |
| StringConstraints.EveryLengthPossible | src/my_codegen/pydantic_utils/data_generator_pydantic.py:317-318 | every length within ordered bounds is possible |
| StringConstraints.HandleStringConstraints | src/my_codegen/pydantic_utils/data_generator_pydantic.py:301-318 | the metadata loop and the draw compute `ConstrainedString` |
| StringConstraints.ConstrainedStringAsWritten | src/my_codegen/pydantic_utils/data_generator_pydantic.py:305-306 | as written, any metadata item makes `isinstance(meta, Field)` raise; only empty metadata reaches the draw |
| StringConstraints.AsWrittenLosesEveryBound | src/my_codegen/pydantic_utils/data_generator_pydantic.py:305-318 | `Annotated[str, Field(min_length=n, max_length=n)]` raises as written, while the intended handler returns exactly `n` letters |
| Fallback.KindValue | src/my_codegen/pydantic_utils/data_generator_pydantic.py:333-358 | each special kind yields its provider's value; Json yields `{"example": "data"}` without a draw |
| Fallback.FallbackKind | src/my_codegen/pydantic_utils/data_generator_pydantic.py:330-358 | a Url marker in the name selects a url; no kind is found iff the name has no Url/Email/Json marker and the string form does not mention pydantic |
| Fallback.Generate | src/my_codegen/pydantic_utils/data_generator_pydantic.py:325-362 | a forward reference gives `[]`; otherwise it raises `Unsupported field type` with the type's string form exactly when no kind is found, and any value it returns is the found kind's value |
| Dispatcher.GenItems | src/my_codegen/pydantic_utils/data_generator_pydantic.py:232-235 | the list comprehension returns exactly `count` items |
| Dispatcher.GenEntries | src/my_codegen/pydantic_utils/data_generator_pydantic.py:245-248 | the dict comprehension returns a dictionary |
| Conformance.DispatchSound | src/my_codegen/pydantic_utils/data_generator_pydantic.py:369-407 | whatever `dispatch` returns conforms to the type at that depth, in the fixed order Optional, Union, Annotated, primitive, container, Enum, RootModel, model, fallback |
| Conformance.ContainerSound | src/my_codegen/pydantic_utils/data_generator_pydantic.py:225-261 | containers are empty at the depth limit, and otherwise hold one or two elements, each conforming one level deeper |
| Conformance.ItemsSound | src/my_codegen/pydantic_utils/data_generator_pydantic.py:232-235 | every generated item conforms to the item type |
| Conformance.EntriesSound | src/my_codegen/pydantic_utils/data_generator_pydantic.py:245-248 | the dictionary has between 1 and `count` word keys and every value conforms |
| Conformance.CombineEntries | src/my_codegen/pydantic_utils/data_generator_pydantic.py:245-248 | adding a drawn key to the remaining entries keeps the size bounds and the conformance of every value |
| Conformance.ModelSound | src/my_codegen/pydantic_utils/data_generator_pydantic.py:268-273 | a nested model is `None` at the depth limit, otherwise a model whose fields all conform one level deeper |
| Conformance.FieldSound | src/my_codegen/pydantic_utils/data_generator_pydantic.py:483-499 | a field gets the smart value for a recognised `str` name, otherwise a value conforming to its unwrapped type |
| Conformance.FillSound | src/my_codegen/pydantic_utils/data_generator_pydantic.py:465-499 | when `fill_all_fields` completes, every field of the model is present with a conforming value |
| Totality.DispatchTotal | src/my_codegen/pydantic_utils/data_generator_pydantic.py:369-407 | over a supported schema, a supported type never raises at any depth |
| Totality.ContainerTotal | src/my_codegen/pydantic_utils/data_generator_pydantic.py:225-261 | a container of a supported element type never raises; for a set, the element type must also be hashable |
| Totality.SetOfListUnsupported | src/my_codegen/pydantic_utils/data_generator_pydantic.py:251-261 | `Set[List[int]]`, whose set comprehension raises `TypeError: unhashable type`, is outside the totality results, while `Set[int]` is inside |
| Totality.ItemsTotal | src/my_codegen/pydantic_utils/data_generator_pydantic.py:232-235 | the list comprehension over a supported type never raises |
| Totality.EntriesTotal | src/my_codegen/pydantic_utils/data_generator_pydantic.py:245-248 | the dict comprehension over a supported type never raises |
| Totality.ModelTotal | src/my_codegen/pydantic_utils/data_generator_pydantic.py:268-273 | a nested model of a supported schema never raises |
| Totality.FillTotal | src/my_codegen/pydantic_utils/data_generator_pydantic.py:465-499 | with every annotation supported, the field loop runs to its end in every mode |
| Totality.FieldTotal | src/my_codegen/pydantic_utils/data_generator_pydantic.py:483-499 | a field with a supported annotation always gets a value |
| Totality.OptionalUnionPicksFirst | src/my_codegen/pydantic_utils/data_generator_pydantic.py:369-379 | `Union[A, B, None]` always generates an `A`, because Optional is unwrapped before the Union branch |
| Totality.AnnotatedStringSkipsOverlay | src/my_codegen/pydantic_utils/data_generator_pydantic.py:483-499 | an `Optional[Annotated[str, ...]]` field, unwrapped to its `Annotated` type, gets a constrained string whatever its name, while a bare `str` field with a recognised name gets the smart value |
| Builder.FillKeys | src/my_codegen/pydantic_utils/data_generator_pydantic.py:465-499 | keys already present are never overwritten, even when a later field raises; only selected fields are added; after a complete run the keys are exactly the old keys plus the selected fields |
| Builder.ModeLeavesOthersAbsent | src/my_codegen/pydantic_utils/data_generator_pydantic.py:474-481 | required-only skips Optional fields and optional-only skips the others |
| Builder.FillValuesConform | src/my_codegen/pydantic_utils/data_generator_pydantic.py:465-499 | every value the loop adds conforms to its field |
| Builder.ConvertToDict | src/my_codegen/pydantic_utils/data_generator_pydantic.py:537-550 | a config model becomes a dictionary with the same keys, each holding the field conversion of the model's value; any other value is returned unchanged; the result is never a config model |
| Builder.ConvertField | src/my_codegen/pydantic_utils/data_generator_pydantic.py:541-549 | a list keeps its length and a dict its keys, each element or value converted by `_convert_to_dict`; any other value that is not a config model passes through; neither the result nor its elements or values are config models |
| Builder.DeepConvert | src/my_codegen/pydantic_utils/data_generator_pydantic.py:533-550 | a reference conversion that replaces every config model at every depth: its result holds no config model anywhere |
| Builder.DeepConvertKeepsPlain | src/my_codegen/pydantic_utils/data_generator_pydantic.py:533-550 | the reference conversion leaves a value without config models unchanged |
| Builder.ConvertKeepsPlain | src/my_codegen/pydantic_utils/data_generator_pydantic.py:537-550 | `_convert_to_dict` and its field conversion return a value with no config model at any depth unchanged |
| Builder.ConvertMatchesDeep | src/my_codegen/pydantic_utils/data_generator_pydantic.py:537-550 | where config models occur only as the model itself, its fields, or elements and values of list and dict fields (recursively), `_convert_to_dict` equals the full conversion, so its result holds no config model at any depth |
| Builder.FieldMatchesDeep | src/my_codegen/pydantic_utils/data_generator_pydantic.py:541-549 | the same for the conversion of one field value |
| Builder.NestedListKeepsConfigModel | src/my_codegen/pydantic_utils/data_generator_pydantic.py:541-549 | the conversion stops one level inside a list: a config model inside a list inside a list field is kept as it is |
| Builder.ConvertToDictIdempotent | src/my_codegen/pydantic_utils/data_generator_pydantic.py:537-550 | converting twice gives the same as converting once |
| Builder.ConvertFieldIdempotent | src/my_codegen/pydantic_utils/data_generator_pydantic.py:541-549 | converting a field value twice gives the same as converting once |
| Builder.GenerateData.constructor | src/my_codegen/pydantic_utils/data_generator_pydantic.py:452-463 | a builder starts with empty data and the given depth and smart flag |
| Builder.GenerateData.FillFields | src/my_codegen/pydantic_utils/data_generator_pydantic.py:465-499 | the in-place loop leaves exactly the data, position and exception of `FillFrom` on the old state, and keeps the smart flag |
| Builder.GenerateData.FillAllFields | src/my_codegen/pydantic_utils/data_generator_pydantic.py:501-504 | merges the pinned values, then fills in all-fields mode |
| Builder.GenerateData.FillRequired | src/my_codegen/pydantic_utils/data_generator_pydantic.py:506-509 | merges the pinned values, then fills in required-only mode |
| Builder.GenerateData.FillOptional | src/my_codegen/pydantic_utils/data_generator_pydantic.py:511-514 | merges the pinned values, then fills in optional-only mode |
| Builder.GenerateData.SetField | src/my_codegen/pydantic_utils/data_generator_pydantic.py:516-518 | `data.update(kwargs)`, and nothing else changes |
| Builder.GenerateData.WithSmartGeneration | src/my_codegen/pydantic_utils/data_generator_pydantic.py:520-523 | sets the flag to `enabled`; the data and the random state are unchanged |
| Builder.GenerateData.DisableSmartGeneration | src/my_codegen/pydantic_utils/data_generator_pydantic.py:525-527 | clears the flag; the data and the random state are unchanged |
| Builder.GenerateData.Build | src/my_codegen/pydantic_utils/data_generator_pydantic.py:529-531 | the model is constructed from exactly the current data |
| Builder.GenerateData.ToDict | src/my_codegen/pydantic_utils/data_generator_pydantic.py:533-535 | for a config model, a dictionary keyed by exactly the data's keys |
| Builder.PinnedSurvivesTwoFills | src/my_codegen/pydantic_utils/data_generator_pydantic.py:501-514 | values pinned in `fill_required(**pinned)` are still present, unchanged, after a following `fill_all_fields()` on the same builder, even when either fill raises |
| PluginContainer.Items | src/my_codegen/pydantic_utils/data_generator/container.py:26-33 | a list of exactly `count` items, each one the plugin dispatcher produces for the item type |
| PluginContainer.Entries | src/my_codegen/pydantic_utils/data_generator/container.py:35-41 | a dictionary of between 1 and `count` word keys whose values the plugin dispatcher produces |
| PluginContainer.Generate | src/my_codegen/pydantic_utils/data_generator/container.py:18-49 | the empty container of the type's kind at the depth limit; below it, a filled container of the right kind; `None` for a type that is not a container |
| PluginContainer.EmptyKeepsKind | src/my_codegen/pydantic_utils/data_generator/container.py:51-58 | at the limit the value is `[]`, `{}` or `set()`, matching the container's kind |
| PluginModel.GenerateModel | src/my_codegen/pydantic_utils/data_generator/pydantic_model.py:28-40 | at the depth limit it never raises: it gives `None` exactly when filling the required fields at the same depth raises, and otherwise the model of that name holding exactly the required fields; below the limit it behaves like the monolithic model generator |
| PluginModel.AtLimitValuesConform | src/my_codegen/pydantic_utils/data_generator/pydantic_model.py:29-36 | at the depth limit every value of the built model conforms to its field's type, or is its smart value, at the same depth |
| PluginModel.Generate | src/my_codegen/pydantic_utils/data_generator/pydantic_model.py:14-26 | a root model wraps the plugin dispatcher's value for its inner type at the same depth, with `{"root"}` as fields set; other models go to the model generator |
| PluginModel.AtLimitFormsDiffer | src/my_codegen/pydantic_utils/data_generator/pydantic_model.py:29-36 | at the depth limit the monolithic generator returns `None` while the plugin returns a model holding exactly the required fields |
| PluginAnnotated.Generate | src/my_codegen/pydantic_utils/data_generator/annotated.py:19-29 | a `str` or missing base gives a constrained string; any other base is delegated with the field name kept |
| PluginAnnotated.NoArgumentsDefaults | src/my_codegen/pydantic_utils/data_generator/annotated.py:21-42 | without arguments the result is a string of 1 to 20 letters |
| PluginSmartField.Generate | src/my_codegen/pydantic_utils/data_generator/smart_field.py:14-44 | a missing or empty name gives text; an exact key wins, then the first pattern; `can_handle` holds iff the type is `str` and the result is not the text fallback |
| PluginSpecialType.FirstKey | src/my_codegen/pydantic_utils/data_generator/special_type.py:42-45 | the first key, in mapping order, found in the lowered string form or the lowered name |
| PluginSpecialType.Generate | src/my_codegen/pydantic_utils/data_generator/special_type.py:23-51 | a forward reference gives `[]`; the first key found selects its generator; otherwise a word for a pydantic type; it raises exactly when no key is found and pydantic is not mentioned |
| PluginSpecialType.PassesCheckButRaises | src/my_codegen/pydantic_utils/data_generator/special_type.py:13-51 | a class with string form `<class 'm.Name'>`, where `Name` starts with `IPv` and neither `m` nor `Name` holds a character of any key, passes `can_handle` through `IPv`, yet `generate` raises, since only `ipv4` and `ipv6` are mapped and pydantic is not mentioned |
| PluginSpecialType.IPvAnyAddressExample | src/my_codegen/pydantic_utils/data_generator/special_type.py:13-51 | a user-defined `IPvAnyAddress` in a module `app` meets those conditions |
| PluginPrimitive.Generate | src/my_codegen/pydantic_utils/data_generator/primitive.py:16-33 | a table key gives a value of its kind; any other type raises the lookup error |
| PluginPrimitive.AgreesWithDispatcher | src/my_codegen/pydantic_utils/data_generator/primitive.py:16-33 | for every table key the plugin and the monolithic dispatcher give the same value, whatever the field name and depth |
| PluginEnum.Generate | src/my_codegen/pydantic_utils/data_generator/enum.py:12-17 | a member of the enumeration; it raises for an empty enumeration or a type that is not one |
| PluginEnum.AgreesWithDispatcher | src/my_codegen/pydantic_utils/data_generator/enum.py:15-17 | the plugin and the monolithic dispatcher choose the same member |
| DataModels.SanitizedPath | src/my_codegen/codegen/data_models.py:25-27 | always starts with `/`, and leaves the path unchanged iff it already did, otherwise prepends one `/` |
| DataModels.SanitizedPathIdempotent | src/my_codegen/codegen/data_models.py:25-27 | sanitising twice gives the same as sanitising once |
| DataModels.WhereMembers | src/my_codegen/codegen/data_models.py:69-83 | the filter keeps exactly the parameters with the wanted `required` flag |
| DataModels.WhereAppend | src/my_codegen/codegen/data_models.py:69-83 | the filter keeps declaration order |
| DataModels.WherePartition | src/my_codegen/codegen/data_models.py:69-83 | required and non-required query parameters together are all of them |
| DataModels.MethodParameters | src/my_codegen/codegen/data_models.py:29-31 | exactly the path parameters flagged required appear, each as `name: type` |
| DataModels.MethodParametersInOrder | src/my_codegen/codegen/data_models.py:29-31 | the listed parameters keep declaration order |
| DataModels.RequiredParamsCoverPath | src/my_codegen/codegen/data_models.py:65-78 | the required list starts with every path parameter, whatever its flag, so it includes `method_parameters` |
| DataModels.ParameterCount | src/my_codegen/codegen/data_models.py:61-89 | the two lists together hold as many entries as there are path and query parameters, plus one |
| DataModels.DeclNameOf | src/my_codegen/codegen/data_models.py:65-83 | `name: type` and `name: Optional[type] = None` both declare `name` |
| DataModels.RequiredNames | src/my_codegen/codegen/data_models.py:65-78 | the required list declares the path parameters, the required query parameters, and `payload` exactly when the payload is required |
| DataModels.OptionalNames | src/my_codegen/codegen/data_models.py:69-89 | the optional list declares the other query parameters, then `params` for a GET or `payload` for another method whose payload is not required |
| DataModels.WhereNamesPartition | src/my_codegen/codegen/data_models.py:69-83 | the names of the required and the other query parameters together are the names of all query parameters |
| DataModels.ParameterNames | src/my_codegen/codegen/data_models.py:61-89 | the names the two lists declare are, as a multiset, the names of the path and query parameters, each once, plus `params` for a GET or `payload` for any other method |
| DataModels.PayloadInExactlyOneList | src/my_codegen/codegen/data_models.py:74-89 | for a non-GET method the payload is the last required parameter or the last optional one, never both; a GET instead ends its optional list with `params` |
| DataModels.EntriesAppend | src/my_codegen/codegen/data_models.py:115-118 | the query dictionary lists the parameters in order |
| DataModels.PayloadParts | src/my_codegen/codegen/data_models.py:129-134 | a payload argument exists iff the payload type is non-empty and starts with `List[` or is not `Any`; the list comprehension is used iff it starts with `List[` |
| DataModels.CallParts | src/my_codegen/codegen/data_models.py:126-147 | a non-GET call starts with the path and ends with `expected_status`; it has a payload part when `PayloadParts` gives one, and a params part iff there are query parameters |
| DataModels.CallPassesPayloadIffRequired | src/my_codegen/codegen/data_models.py:74-134 | a non-GET call passes the payload exactly when it is a required parameter; an optional `Any` payload is declared but never passed on |
| DataModels.BuildParamsDict | src/my_codegen/codegen/data_models.py:115-118 | the dictionary loop yields `{`, one `'name': name, ` entry per query parameter in order, then the closing text |
| DataModels.HttpCall | src/my_codegen/codegen/data_models.py:110-150 | the step-by-step accumulation of the dictionary and the call parts yields the call template |
| DataModels.InnerType | src/my_codegen/codegen/data_models.py:161 | `return_type[5:-1]`: the text between `List[` and the last character, empty when there is none |
| DataModels.InnerTypeRoundTrip | src/my_codegen/codegen/data_models.py:160-161 | `List[X]` gives back `X` |
| DataModels.ReturnStatement | src/my_codegen/codegen/data_models.py:152-171 | `return r_json` exactly for `Any`; every other form starts with `return ` and ends with the `HTTPStatus` condition |
| DataModels.ListReturnConvertsEachItem | src/my_codegen/codegen/data_models.py:160-165 | `List[X]` converts each item with `X(item)` for str/int/float/bool/Any, and with `X(**item)` otherwise |
| DataModels.AppendPathDecls | src/my_codegen/codegen/data_models.py:65-67 | every path parameter, whatever its flag, is appended in order as `name: type` |
| DataModels.AppendQueryDecls | src/my_codegen/codegen/data_models.py:69-83 | exactly the query parameters with the wanted flag are appended, in order: as `name: type` when required, as `name: Optional[type] = None` otherwise |
| DataModels.FromEndpoint | src/my_codegen/codegen/data_models.py:58-107 | the appending loops build exactly the required and optional lists; the call, return statement and copied fields are those of the endpoint |
| ServiceName.CollapseRuns | src/my_codegen/swagger/loader.py:78 | the substitution yields only letters, digits and single `_` separators, and keeps the letters and digits |
| ServiceName.CollapseCopiesAlnums | src/my_codegen/swagger/loader.py:78 | a run of letters and digits is copied unchanged |
| ServiceName.CollapseJoinsRun | src/my_codegen/swagger/loader.py:78 | a non-empty run of other characters becomes exactly one `_` |
| ServiceName.CollapseSeparated | src/my_codegen/swagger/loader.py:78 | two runs of letters and digits around a run of other characters are joined by exactly one `_` |
| ServiceName.SeparatorRunBecomesUnderscore | src/my_codegen/swagger/loader.py:76-79 | for such a title the result is the lowered first run, `_`, and the lowered second run: `"My API"` gives `"my_api"` |
| ServiceName.ServiceNameWellFormed | src/my_codegen/swagger/loader.py:76-79 | only lower-case ASCII letters, digits and `_`; no `_` at either end; never two `_` in a row |
| ServiceName.ServiceNameKeepsAlnums | src/my_codegen/swagger/loader.py:78-79 | the title's letters and digits appear in the result in order, lowered, and nothing else does |
| ServiceName.ServiceNameEmptyWithoutAlnum | src/my_codegen/swagger/loader.py:78-79 | a title without letters or digits gives `""` |
| ServiceName.ServiceNameFixes | src/my_codegen/swagger/loader.py:78-79 | a well-formed name is left unchanged |
| ServiceName.ServiceNameIdempotent | src/my_codegen/swagger/loader.py:78-79 | applying it to its own result changes nothing |

## Left out

- Distributions. The model states which values are possible and which are never produced. It does not state probabilities or uniformity.
- Floating point. `random.uniform` floats are opaque tokens, as are Faker's text, names, dates and the clock.
- Formats. Date and time formatting, and the version-4 UUID format (section 4.4 of RFC 4122), are not modelled.
- Python's `X | None` union syntax (`types.UnionType`) is not modelled. Only `typing.Union` and `typing.Optional` are.
- Hashing. Set and dictionary semantics follow Dafny's structural equality. Python's hashing (`1 == True`) and dictionary insertion order are not modelled. `generate_set` raises `TypeError: unhashable type` below the depth limit when the element type produces a list, dict, set, model instance, forward-reference `[]` or Json example. So does the set comprehension of the container plugin at `data_generator/container.py:46-49`. The model's `GenContainer` and `PluginContainer.Generate` build such a set without raising. `Totality.Supported` therefore requires a set's element type to be `Totality.Hashable`, so `Totality.DispatchTotal` and `Totality.ContainerTotal` do not claim these sets are total.
- Model data is a map from field name to value. `model_construct` is a record of the model's name and that map, without pydantic's validation or defaults.
- Builder.GenerateData.Build and Builder.GenerateData.ToDict keep every key of the builder's data. Pydantic's `model_construct` stores only declared field names, so a key that is not a field (for example one passed as `set_field(typo=1)`) never reaches the source's `to_dict`. The model keeps such keys.
- A model name missing from the schema is treated as a model without fields.
- The plugin dispatcher `ValueGenerator.generate` and its order of generators are not part of this model. The plugins that recurse take that dispatcher as a function parameter.
- The smart-field plugin's tables `SmartFieldConfig.EXACT_MAPPINGS` and `PATTERN_MAPPINGS` are not part of this model either. The plugin takes them as parameters.
- `RandomValueGenerator._handle_annotated` rebuilds an `Annotated` type and calls the handler that is modelled. The rebuild itself is not modelled.
- Logging, `SwaggerLoader.load`, `download_swagger` and the `Swagger*` schema classes are not modelled. They are file, shell and validation I/O.
- `lower()` is modelled on ASCII letters only. This is exact for `get_service_name`, whose substitution leaves only ASCII characters. For the name tests of the smart-field, fallback and special-type generators, non-ASCII case mapping is not modelled.
- PluginSpecialType.Generate: covers only forward references, opaque classes and `NoneType`. Those are the types for which the model holds a string form.
- Metadata. `Annotated` metadata is a sequence of length-constraint records and other items; pydantic's `FieldInfo` and `StringConstraints` classes are not modelled. The monolithic handler's separate `Field` and `StringConstraints` branches are one case here, as are the plugin's `hasattr` checks: this is the intended handler, in which both branches would set the same bounds. As written, the first `isinstance(meta, Field)` test raises `TypeError`, which `StringConstraints.ConstrainedStringAsWritten` models.
- Dispatcher.Dispatch and PluginAnnotated.Generate use `StringConstraints.ConstrainedString`, the intended handler, for an `Annotated` type whose base is `str` or missing, rather than `StringConstraints.ConstrainedStringAsWritten`. `Conformance.DispatchSound`, `Totality.DispatchTotal` and `Totality.AnnotatedStringSkipsOverlay` therefore describe the intended program on a nested `Annotated[str, ...]` such as `Optional[Annotated[str, Field(max_length=3)]]`. On any such annotation with metadata, the source as written raises `TypeError` (`data_generator_pydantic.py:305-306`, `data_generator/annotated.py:34-35`).
- Hand-checked dispatcher cases. No lemma states that the monolithic dispatcher raises `Unsupported field type` for `NoneType`, for example. Such cases follow from `Fallback.Generate` and `Fallback.FallbackKind` with the concrete name and string form.
- `Union` without arguments cannot be written in Python. The model makes its `random.choice` raise.
- Field annotations are what `_fill_fields` reads from `field_info.annotation`. For a top-level `x: Annotated[str, ...]`, pydantic moves the metadata into `field_info.metadata` and leaves the annotation as `str`. Such a field is therefore a plain `Str` field here, and it can get a smart value. Only an `Annotated` nested inside another annotation, such as `Optional[Annotated[str, ...]]`, reaches the annotated-string handler, and `Totality.AnnotatedStringSkipsOverlay` is stated for that form.
- Self-referencing root models. A root model is `Root(name, inner)` with its inner type stored inline, so a root model whose inner type refers back to itself outside a container cannot be written, for example `class R(RootModel[Optional['R']])`. Both generators handle a root model at the same depth (`data_generator_pydantic.py:276-279`, `data_generator/pydantic_model.py:21-26`), so on such a type the source would recurse until Python's recursion limit. `Totality.DispatchTotal` and the other totality results do not cover this case.
- `TypeUtils` is not part of this model. The `can_handle` checks of the pydantic-model, annotated and enum plugins call `TypeUtils.is_pydantic_model`, `is_root_model`, `is_annotated` and `is_enum`. `PluginModel.CanHandle`, `PluginAnnotated.CanHandle` and `PluginEnum.CanHandle` assume these mean "a model or root model class", "an `Annotated` type" and "an `Enum` subclass".

## Findings

| source | as written | input that shows it | evidently intended | confidence | as-written member | corrected member |
|---|---|---|---|---|---|---|
| src/my_codegen/pydantic_utils/data_generator_pydantic.py:305-316 | `isinstance(meta, Field)` is evaluated for every metadata item, but `pydantic.Field` is a function, so the call raises `TypeError` | `Annotated[str, Field(min_length=5, max_length=5)]` inside a container annotation | read `min_length`/`max_length` from the metadata and draw a string of that length | medium, not executed | StringConstraints.AsWrittenLosesEveryBound | StringConstraints.ConstrainedString |
| src/my_codegen/pydantic_utils/data_generator/annotated.py:34-39 | `isinstance(meta, (Field, StringConstraints))` raises `TypeError` on its first element for the same reason | `Annotated[str, StringConstraints(max_length=3)]` | read the bounds from the metadata | medium, not executed | StringConstraints.ConstrainedStringAsWritten | StringConstraints.ConstrainedString |
