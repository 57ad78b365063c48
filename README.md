# Data preparation pipeline: a Dafny model

The pipeline gathers billing, usage and support extracts, each possibly split
over several uploaded files, and turns them into one analysis-ready table per
customer (or per customer and product). A Streamlit wizard takes the operator
through the steps: upload and categorise the files, map their columns, apply
an advisor's cleaning suggestions, aggregate to the chosen granularity, and
join everything. The centre of the work is step 5, the resumable join
engine. It first consolidates the files of each category by inner joins,
one operator-confirmed join per run of the page. It then left-joins the
consolidated billing table with a usage or support table and adds presence
flags.

This project models that engine and the bookkeeping around it as Dafny
datatypes, functions, classes and methods, and proves properties of them.
Every run of a Streamlit page is one call. The session store is a value
(`DataJoining.Session`) or an object's fields (`JoiningEngine.Engine`,
`MainOrchestration.Orchestrator`, `CleaningApp.Review`). The button the
operator clicked is an input.

Modules, one per source file or shared concern:

- `Wrappers`: Option and Result.
- `Text`: `strip`, `split`, `join`, `find`/`rfind`, `lower` and `title`, with their laws.
- `Tables`: tables as rows of column-to-value maps. It defines `pd.merge` as relational inner and left joins, plus rename, constant assignment, text cast, `nunique` and duplicate-key detection.
- `JsonText`: the `_clean_json_string` extraction that the three LLM agents share.
- `DataJoining`, `JoiningEngine`: `orchestration/step5_data_joining.py`. `DataJoining` gives the pure specification over a session value. `JoiningEngine` gives the imperative engine, proved to agree with it.
- `AggregationAgent`, `MappingAggregationAgent`, `ColumnMappingAgent`, `CleanSuggestions`: the four agents.
- `AggregationSteps`: `orchestration/step4_data_aggregation.py`.
- `Cleaning`, `DataCleaning`: what the cleaning front ends share, and `orchestration/step3_data_cleaning.py`.
- `MainOrchestration`: upload bookkeeping of `orchestration/main_orchestration.py`.
- `AggregationApp`, `CleaningApp`: the stand-alone pages under `individual_agent_files_for_ref/`.

The code behaves as follows, whatever its names and messages suggest, and the model follows it:

- A lone file of a category is stored without any confirmation. The only confirmation guard (line 171) requires more than one billing file inside the one-file branch, so it can never hold.
- Each intra run restarts from the first file (line 198). Join i merges file 1 with file i+1 and stores that; earlier confirmed joins are not folded in.
- The next category is the first of billing, usage, support that is greater as a string (lines 183, 254). Support is never reached from usage, and never reached at all while usage has files.
- The inter phase joins only when exactly one secondary is present. With both, it returns None (line 335). No join order is chosen, and the code raises no type-mismatch error of its own.
- The presence flags are constants on every row (lines 306-308), not per-row match indicators.
- The join statistics show counts and unique customers or products only. Overlap, null-rate and date-range figures are not computed. After a confirmed join the merged table is passed as "File1" (lines 242-248).
- A failed run does not leave the state unchanged:
  - the caller's file lists are already standardised (line 157);
  - the working category is already recorded (line 142).
- A lone file without CustomerID completes the intra phase without a key check, but the debug listing that follows (line 47) then fails with KeyError('CustomerID'). The phase stays complete, so the next run goes on to the inter phase.
- A secondary that already has a BillingDate column gets a second one from the date rename (line 364), and the merge then fails on the repeated key.
- Nothing sets `inter_category_joins_completed` or `post_processing_started`, so both post-processing branches are unreachable.

## Model

| member | source | states |
|---|---|---|
| CleanSuggestions.Tidied | agents/clean_suggestions_agent.py:83 | the tidied list is never longer than the reply's lines |
| CleanSuggestions.ExecuteTask | agents/clean_suggestions_agent.py:19-35 | a non-DataFrame task fails with exactly the source's ValueError (and only then); a None message content fails on `strip`; otherwise the suggestions of the reply |
| CleanSuggestions.TidiedClean | agents/clean_suggestions_agent.py:79-83 | from newline-free lines, every suggestion is non-empty, has no newline, has no whitespace at either end, and is the strip of one of the lines |
| CleanSuggestions.SuggestionsClean | agents/clean_suggestions_agent.py:79-85 | every suggestion returned is clean in that sense |
| CleanSuggestions.TidiedFixed | agents/clean_suggestions_agent.py:83 | clean lines are their own tidying |
| CleanSuggestions.SuggestionsIdempotent | agents/clean_suggestions_agent.py:79-85 | feeding the suggestions, joined by newlines, back through the clean-up gives the same list |
| JsonText.Extract | agents/aggregation_agent.py:169-178 | nothing is cut out exactly when the text lacks a `{` or a `}` |
| JsonText.TidyBraced | agents/aggregation_agent.py:180-188 | a text that starts with `{` and ends with `}` passes the fence, `json` and strip steps unchanged |
| JsonText.TidyEmpty | agents/aggregation_agent.py:180-188 | the empty text stays empty |
| JsonText.CleanJsonSpec | agents/aggregation_agent.py:166-199 | without both braces the answer is `{}`; otherwise exactly the text from the first `{` to the last `}` is parsed (or the empty text when the last `}` comes first), and a non-dict parse gives `{}` |
| JsonText.ParsesBracedSlice | agents/aggregation_agent.py:170-191 | when the first `{` precedes the last `}`, the parser receives exactly that slice |
| JsonText.ExtractBraced | agents/aggregation_agent.py:170-178 | the slice cut out starts with `{` and ends with `}` |
| AggregationAgent.GroupbyColumns | agents/aggregation_agent.py:66-82 | an unknown lower-cased category is a ValueError naming it (and only then); otherwise the customer and date columns of the category, with the product column appended at product level |
| AggregationAgent.GroupbyMatchesJoinKeys | agents/aggregation_agent.py:19-32 | for a known category the group-by columns are the joining step's intra-category keys, same number and same members |
| AggregationAgent.CheckAggregationNeeded | agents/aggregation_agent.py:84-99 | true exactly when a group-by column is missing (the handler's answer) or two rows share all group-by values |
| AggregationAgent.ExecuteTask | agents/aggregation_agent.py:35-58 | a missing table fails on `columns`; an unknown category propagates the ValueError; otherwise `False` exactly when the columns exist and the keys are unique, and the suggestions are the cleaned reply |
| AggregationAgent.ExecuteTaskCategory | agents/aggregation_agent.py:39-72 | lower-casing the category twice gives the same group-by columns as once |
| AggregationAgent.TextDescriptions | agents/aggregation_agent.py:113-116 | one description per dtype entry, with the source's wording |
| AggregationAgent.RemoveGroupbyColumns | agents/aggregation_agent.py:118-127 | the four dicts lose exactly the group-by columns: none of them is left, every other entry stays unchanged |
| AggregationAgent.DropColumn | agents/aggregation_agent.py:119-127 | one iteration removes exactly that column from the four dicts |
| AggregationAgent.ElementsSet | agents/aggregation_agent.py:119 | the set built from the front of the list is the list's set of columns |
| AggregationAgent.Bullets | agents/aggregation_agent.py:131-132 | one bullet per column, in order |
| AggregationAgent.GroupbyMessage | agents/aggregation_agent.py:129-132 | the message is the header, the bullets and a final newline, joined by newlines |
| AggregationAgent.GroupbyMessageLines | agents/aggregation_agent.py:129-132 | for newline-free column names the message splits into the header, `- <col>` per column in order, and an empty last line |
| MappingAggregationAgent.Picked | agents/aggregation_aggregation_agent.py:72-79 | a role adds at most one column, and one exactly when its mapping entry is truthy |
| MappingAggregationAgent.GroupbyListSpec | agents/aggregation_aggregation_agent.py:69-79 | the group-by list holds at most three names, customer first and product last, in role order, each only when truthy; it is empty exactly when no role is truthy; no entry is empty and each is some truthy role's column |
| MappingAggregationAgent.GroupbyCols | agents/aggregation_aggregation_agent.py:69-79 | the three conditional appends build exactly that list |
| MappingAggregationAgent.CheckAggregationNeeded | agents/aggregation_aggregation_agent.py:67-85 | no group-by column gives False without looking at the table; True exactly when the columns exist and two rows share all of them; failure exactly when the table is None or a column is missing, and then a KeyError naming a missing group-by column |
| MappingAggregationAgent.GroupbyMessage | agents/aggregation_aggregation_agent.py:116-129 | a missing `customer_id` or `date` key is a KeyError for that key; otherwise the header and the bullet lines joined by newlines |
| MappingAggregationAgent.GroupbyMessageLines | agents/aggregation_aggregation_agent.py:116-129 | for newline-free names, the message splits into its header and bullets: four lines when `product_id` is truthy, three otherwise |
| MappingAggregationAgent.RemovedColumns | agents/aggregation_aggregation_agent.py:105 | the removed names are exactly the mapping's non-None values, whatever their role |
| MappingAggregationAgent.PreparePrompt | agents/aggregation_aggregation_agent.py:104-114 | exactly the non-None mapping values are deleted from the four prompt dicts: none of them is left and every other entry stays |
| MappingAggregationAgent.ExecuteTask | agents/aggregation_aggregation_agent.py:18-30 | `False` exactly when the check answers False; the check's error propagates; when aggregation is needed, the group-by message's KeyError propagates, and otherwise the answer is the suggestions of the cleaned reply |
| MappingAggregationAgent.NoMappingNoAggregation | agents/aggregation_aggregation_agent.py:18-27 | without a mapping the agent answers `False` |
| MappingAggregationAgent.AgreesWithCategoryAgent | agents/aggregation_aggregation_agent.py:18-30 | with the mapping naming a category's customer, date and (at product level) product columns, the agent answers as the category-driven advisor when the table has those columns; when it lacks one it raises KeyError where that advisor answers with suggestions |
| ColumnMappingAgent.Shape | agents/aggregation_column_mapping_agent.py:84-88 | exactly the three role keys, each the parsed dict's entry or None |
| ColumnMappingAgent.ExecuteTask | agents/aggregation_column_mapping_agent.py:53-91 | always the three role keys; a None table or a failing reply gives all None; otherwise each role's entry of the cleaned reply, or None |
| ColumnMappingAgent.NoBracesAllNone | agents/aggregation_column_mapping_agent.py:82-88 | a reply lacking a brace gives all None |
| ColumnMappingAgent.ParsedFromBracedSlice | agents/aggregation_column_mapping_agent.py:18-48 | with both braces in order, each role is that role's entry of the object parsed from the first `{` to the last `}`, or None |
| AggregationSteps.FilterAllowed | orchestration/step4_data_aggregation.py:38-41 | succeeds exactly when every item is an object with a `method` entry; never keeps more than it was given |
| AggregationSteps.FilterAllowedSpec | orchestration/step4_data_aggregation.py:38-41 | a suggestion is kept if and only if its method is allowed, and every kept one is an item of the list |
| AggregationSteps.ProcessSuggestions | orchestration/step4_data_aggregation.py:33-44 | succeeds exactly when every feature has column information and a well-formed list; then the result is the features that keep a suggestion, with what they keep; on failure the error is that of some feature |
| AggregationSteps.ProcessedSpec | orchestration/step4_data_aggregation.py:36-44 | only features of the analysis appear, each with column information and a non-empty list of allowed suggestions |
| AggregationSteps.MinMaxOnly | orchestration/step4_data_aggregation.py:56-58 | the date methods kept are exactly the `min` and `max` selections |
| AggregationSteps.TranslateAllSpec | orchestration/step4_data_aggregation.py:55-68 | for a date column the functions are exactly its `min`/`max` selections in order; otherwise one function per method in order, `unique count` as `nunique`, `mode` as the mode function, anything else unchanged |
| AggregationSteps.TranslateMethods | orchestration/step4_data_aggregation.py:53-68 | the inner append loop builds exactly that list |
| AggregationSteps.FinalMethods | orchestration/step4_data_aggregation.py:49-70 | a selected column the table lacks is a KeyError naming it (and only then); otherwise every selected column, and no other, maps to its translated list |
| AggregationSteps.CleanColumnNames | orchestration/step4_data_aggregation.py:82-97 | one name per label, position for position, each the label's flattened name; the stand-alone page renames with the same loop (individual_agent_files_for_ref/aggregation_app.py, lines 394-411) |
| AggregationSteps.FlattenedNames | orchestration/step4_data_aggregation.py:89-94 | a group-by key label becomes `key_`, `nunique` reads `unique_count`, the mode function `mode`, and any other function its own name |
| AggregationSteps.KeyNameRestored | orchestration/step4_data_aggregation.py:73-78 | the joining step's standardiser turns a flattened key name back into the key |
| AggregationApp.ModifiedMapping | individual_agent_files_for_ref/aggregation_app.py:129-133 | a mapping is saved exactly when both required boxes hold a column and the button is clicked; it has the three role keys, the chosen columns, and a None product exactly when `'None'` was chosen |
| AggregationApp.ModifiedMappingGroupby | individual_agent_files_for_ref/aggregation_app.py:129-133 | a saved mapping groups by the two required columns, then by the product column exactly when a real one was chosen |
| AggregationApp.AsJson | individual_agent_files_for_ref/aggregation_app.py:235 | the kept suggestions written back as a list, one object per suggestion in order |
| AggregationApp.FilterSuggestions | individual_agent_files_for_ref/aggregation_app.py:216-237 | succeeds exactly when every column-information feature has a well-formed entry; then each feature keeps its allowed suggestions or is popped, every other entry is untouched, `total_features == \|column_info\|` and `valid_suggestions_count` (at most that) counts the features that kept one; on failure the error is some feature's |
| AggregationApp.FilterFeature | individual_agent_files_for_ref/aggregation_app.py:219-237 | one iteration fails exactly when the feature's entry does, and otherwise extends the loop state by that feature |
| AggregationApp.EditedStep | individual_agent_files_for_ref/aggregation_app.py:229-237 | processing one more feature keeps the dict as specified and adds one to the count exactly when something was kept |
| AggregationApp.EditedUnique | individual_agent_files_for_ref/aggregation_app.py:219-237 | the specification of the edited dict admits only one dict |
| AggregationApp.FilterAllowedFixed | individual_agent_files_for_ref/aggregation_app.py:224-227 | allowed suggestions pass the filter unchanged |
| AggregationApp.KeptFixed | individual_agent_files_for_ref/aggregation_app.py:224-235 | the kept suggestions of a feature, filtered again, are the same |
| AggregationApp.FilteredIdempotent | individual_agent_files_for_ref/aggregation_app.py:216-237 | filtering the filtered suggestions keeps the same suggestions for every feature and leaves the dict unchanged |
| AggregationApp.GridRow | individual_agent_files_for_ref/aggregation_app.py:279-283 | one cell per grid method; enabled exactly when the method is allowed, pre-ticked exactly when the advisor suggested it |
| AggregationApp.SelectedSpec | individual_agent_files_for_ref/aggregation_app.py:305-317 | a method is selected exactly when it is in the grid, enabled and ticked |
| AggregationApp.SelectedMethods | individual_agent_files_for_ref/aggregation_app.py:305-317 | the checkbox loop selects the enabled, ticked methods in grid order |
| AggregationApp.UntouchedRowSelects | individual_agent_files_for_ref/aggregation_app.py:279-317 | left as it starts, a row selects exactly the grid methods that are both allowed and suggested |
| AggregationApp.AppTranslated | individual_agent_files_for_ref/aggregation_app.py:349-371 | a date column keeps only a lower-cased `min` or `max`; any other column gets exactly one function per method |
| AggregationApp.AppTranslateAll | individual_agent_files_for_ref/aggregation_app.py:348-371 | never more functions than methods, and exactly as many for a non-date column |
| AggregationApp.AppTranslateMethods | individual_agent_files_for_ref/aggregation_app.py:348-371 | the append loop builds exactly that list |
| AggregationApp.DefaultMethods | individual_agent_files_for_ref/aggregation_app.py:374-382 | exactly one default: `max` for DATETIME, `last` for TEXT, `mean` otherwise |
| AggregationApp.AppFinalMethods | individual_agent_files_for_ref/aggregation_app.py:342-382 | a grid feature the table lacks is a KeyError naming it (and only then); otherwise every feature, and no other, gets its translated selection or its default |
| AggregationApp.FeatureMethodsCount | individual_agent_files_for_ref/aggregation_app.py:342-382 | a non-date feature gets one function per selected method, or its single default; nothing selected means the default |
| AggregationApp.AgreesWithOrchestrator | individual_agent_files_for_ref/aggregation_app.py:359-371 | on a lower-case method of a non-date column, the page translates as the step-4 orchestrator does, except that `last value` becomes `last` |
| AggregationApp.AgreesWithOrchestratorOnDates | individual_agent_files_for_ref/aggregation_app.py:353-357 | on a date column both keep only `min` and `max` |
| AggregationApp.DisplayInvertsTranslation | individual_agent_files_for_ref/aggregation_app.py:185-196 | showing the translated function gives back the lower-cased method exactly when it is neither `last value` nor `nunique` |
| Cleaning.Attempt | orchestration/step3_data_cleaning.py:43-57 | the entry names the suggestion; it is applied exactly when the code ran, and never skipped |
| Cleaning.CountTotal | individual_agent_files_for_ref/cleaning_app.py:242-245 | the applied, failed and skipped counts add up to the history's length |
| Cleaning.CountZero | individual_agent_files_for_ref/cleaning_app.py:242-245 | a status is counted zero times exactly when no entry has it |
| DataCleaning.RunHistory | orchestration/step3_data_cleaning.py:28-57 | one entry per suggestion in order, each naming its suggestion and applied or failed; nothing skipped; applied + failed is the number of suggestions |
| DataCleaning.RunUnchanged | orchestration/step3_data_cleaning.py:39-41 | when nothing was applied the table is the one given |
| DataCleaning.ApplySuggestions | orchestration/step3_data_cleaning.py:18-57 | the loop returns the table and the summary of the suggestion-by-suggestion run, with applied + failed == total == \|history\| and skipped 0 |
| DataCleaning.TableOutcomeSpec | orchestration/step3_data_cleaning.py:12-59 | a missing table is the advisor's ValueError; success exactly when the table and the reply are there; then total == \|history\|, applied + failed == total, skipped 0, the history follows the suggestions, and nothing applied leaves the table as it was |
| DataCleaning.ProcessTable | orchestration/step3_data_cleaning.py:12-59 | `process_table` gives the outcome stated by the lemma above |
| DataCleaning.OutcomesSpec | orchestration/step3_data_cleaning.py:75-97 | processing categories in turn succeeds exactly when every one does, giving one result each in order; otherwise the error is that of the first failing one |
| DataCleaning.OutcomesFailed | orchestration/step3_data_cleaning.py:75-97 | once a prefix has failed, the rest changes nothing |
| DataCleaning.ProcessInOrder | orchestration/step3_data_cleaning.py:75-97 | the loop over the categories gives exactly that outcome, one result per category |
| DataCleaning.CleanData | orchestration/step3_data_cleaning.py:61-105 | fails exactly when some category fails, with its error; otherwise one cleaned table per category and summaries keyed by exactly billing, usage and support |
| DataCleaning.CleanDataSpec | orchestration/step3_data_cleaning.py:61-105 | succeeds exactly when all three tables and replies are there; a missing billing table is the advisor's ValueError; each summary balances |
| CleaningApp.Review.constructor | individual_agent_files_for_ref/cleaning_app.py:61-68 | fresh suggestions start with nothing processed, an empty history, index 0 and no mode, and satisfy the review invariant |
| CleaningApp.Review.ChooseMode | individual_agent_files_for_ref/cleaning_app.py:82-92 | only the mode changes, and the invariant is kept |
| CleaningApp.Review.ApplyCurrent | individual_agent_files_for_ref/cleaning_app.py:124-159 | the table becomes the result when the code runs and stays otherwise; the current index joins the processed set; one applied or failed entry is appended; the index moves on by exactly one; the invariant is kept |
| CleaningApp.Review.Skip | individual_agent_files_for_ref/cleaning_app.py:161-171 | one skipped entry is appended, the index joins the processed set and moves on by one, the table is kept, and so is the invariant |
| CleaningApp.Review.ApplyRemaining | individual_agent_files_for_ref/cleaning_app.py:173-177 | offered only while something follows the current suggestion; switches to batch and changes nothing else |
| CleaningApp.Review.RunBatch | individual_agent_files_for_ref/cleaning_app.py:188-225 | exactly the unprocessed suggestions (those from the history's length on) are tried in ascending order, as the orchestrated cleaning step runs them; afterwards every suggestion is processed and the index and mode are kept |
| CleaningApp.Review.BatchStep | individual_agent_files_for_ref/cleaning_app.py:189-224 | one unprocessed index is tried and the batch's progress extends by it |
| CleaningApp.Review.CompleteSpec | individual_agent_files_for_ref/cleaning_app.py:240-245 | under the invariant the review is complete exactly when the history covers every suggestion, and then the three counts add up to the number of suggestions |
| CleaningApp.Review.IndividualSpec | individual_agent_files_for_ref/cleaning_app.py:117-177 | one by one, "Apply Remaining" is offered exactly when a suggestion follows the current one, and the review is complete exactly when the index has passed the last suggestion |
| CleaningApp.CardBelow | individual_agent_files_for_ref/cleaning_app.py:240 | a set holding exactly the naturals below n has n elements |
| CleaningApp.BatchFromStart | individual_agent_files_for_ref/cleaning_app.py:82-245 | choosing the batch straight away cleans exactly as the orchestrated cleaning step does, and the review is then complete |
| CleaningApp.BatchTwice | individual_agent_files_for_ref/cleaning_app.py:188-225 | a second batch pass finds nothing left to do |
| MainOrchestration.InitialUploadsSpec | orchestration/main_orchestration.py:16-21 | the initial uploads hold exactly the three categories, each with an empty list, so no file counts as uploaded |
| MainOrchestration.Store | orchestration/main_orchestration.py:246-258 | appending to a category succeeds exactly when the category is a key of the uploads, and otherwise fails with a KeyError naming it |
| MainOrchestration.StoreSpec | orchestration/main_orchestration.py:252-258 | a successful store keeps the keys, extends the category's list by exactly the new upload at its end, leaves every other category alone, and makes some file count as uploaded |
| MainOrchestration.FileLabelSpec | orchestration/main_orchestration.py:299 | with more than one file the labels of two different indices differ; with one file the label is the titled category name |
| MainOrchestration.NatToTextInjective | orchestration/main_orchestration.py:299 | two numbers with the same decimal text are equal, so file numbers never collide |
| MainOrchestration.DataOf | orchestration/main_orchestration.py:192-194 | the list of data has one entry per upload, the data of that upload, in order |
| MainOrchestration.Step2Tables | orchestration/main_orchestration.py:225-229 | the step-2 tables hold the three categories, each None when its list is empty and the list itself otherwise |
| MainOrchestration.Step2TablesFromUploads | orchestration/main_orchestration.py:191-194 | going from uploads through the step-1 output to the step-2 tables, a category is None exactly when nothing was uploaded for it, and otherwise holds the data of its uploads, one per file, in upload order |
| MainOrchestration.Orchestrator.constructor | orchestration/main_orchestration.py:10-21 | a fresh session starts at step 1 with the initial uploads, every flag false and nothing pending, and satisfies the session invariant |
| MainOrchestration.Orchestrator.LoadFile | orchestration/main_orchestration.py:94-114 | a file that loads sets the pending table, name and identified category and the two flags; a load that raises clears the processing flag and leaves the pending data as it was; nothing else changes |
| MainOrchestration.Orchestrator.StoreConfirmedTable | orchestration/main_orchestration.py:244-266 | fails with a KeyError exactly when the category is unknown, and then changes nothing it would have touched; otherwise the uploads become the store of the pending table and name and the pending state is reset; later-step state is untouched |
| MainOrchestration.Orchestrator.Append | orchestration/main_orchestration.py:252-258 | the upload is appended to the category and nothing else changes |
| MainOrchestration.Orchestrator.ClearPending | orchestration/main_orchestration.py:260-266 | the pending flags and data are reset; uploads and later-step state are untouched |
| MainOrchestration.Orchestrator.ConfirmSuggestion | orchestration/main_orchestration.py:135-139 | confirming the suggested category stores the pending table under it exactly when it is one of the three categories and then clears the six pending values; otherwise it fails with a KeyError naming it and keeps the uploads and the pending state; the later step-1 fields stay |
| MainOrchestration.Orchestrator.ConfirmChoice | orchestration/main_orchestration.py:141-150 | a category chosen from the three always stores the pending table under it, clears the six pending values, leaves some file uploaded, and keeps the later step-1 fields |
| MainOrchestration.Orchestrator.CompleteUpload | orchestration/main_orchestration.py:152-164 | the upload is marked complete exactly when the tables validate; uploads, step, granularity flag, problem level, step-1 output and the pending state are kept |
| MainOrchestration.Orchestrator.SelectGranularity | orchestration/main_orchestration.py:178-186 | the problem level becomes "Product Level" or "Customer Level" as chosen and is marked selected; uploads, step, upload flag, step-1 output and the pending state are kept |
| MainOrchestration.Orchestrator.Proceed | orchestration/main_orchestration.py:188-200 | the step-1 output holds the data of each category's uploads, the problem level and the validation flag, and the session moves to step 2; uploads, problem level, both step-1 flags and the pending state are kept |
| MainOrchestration.FirstUpload | orchestration/main_orchestration.py:94-150 | from a fresh session, loading a file and confirming a chosen category leaves exactly that file under that category and the session valid |
| DataJoining.StandardizeAll | orchestration/step5_data_joining.py:150-157 | the standardised list has one table per file, each file standardised, in the same order |
| DataJoining.MappingShape | orchestration/step5_data_joining.py:113-119 | each of the five variants is its canonical name plus a trailing underscore, no canonical name is itself a variant, and canonical names map to themselves |
| DataJoining.ApplyRenamesColumns | orchestration/step5_data_joining.py:123-127 | renames whose targets are never sources keep the column count, the row count and the column order, mapping each column through the first rename that names it |
| DataJoining.StandardizeColumnsSpec | orchestration/step5_data_joining.py:108-130 | the standardiser renames exactly the five variants to their canonical names, keeps every other name, the column order and the row count, and leaves no variant behind |
| DataJoining.StandardizeIdempotent | orchestration/step5_data_joining.py:108-130 | standardising twice is standardising once |
| DataJoining.StandardizeAllIdempotent | orchestration/step5_data_joining.py:150-157 | standardising a category's files twice is standardising them once, so the overwrite of the caller's list is harmless on a rerun |
| DataJoining.JoinKeysSurviveStandardize | orchestration/step5_data_joining.py:159-164 | a file carrying each intra join key plainly or with a trailing underscore has all the keys after standardising |
| DataJoining.KeySurvives | orchestration/step5_data_joining.py:113-127 | a canonical name present plainly or as its variant is present after standardising |
| DataJoining.FirstMissing | orchestration/step5_data_joining.py:204-208 | the key reported is one of the join keys and is missing from the table |
| DataJoining.StrLessIrreflexive | orchestration/step5_data_joining.py:183 | no category name is greater than itself |
| DataJoining.StrLessTransitive | orchestration/step5_data_joining.py:183 | Python's string order is transitive |
| DataJoining.StrLessAsymmetric | orchestration/step5_data_joining.py:183 | Python's string order is asymmetric |
| DataJoining.NextInSpec | orchestration/step5_data_joining.py:183 | the next category is a listed category greater than the current one that has files, and there is one exactly when such a category exists |
| DataJoining.NextCategoryAdvances | orchestration/step5_data_joining.py:183-193 | the next category is strictly greater than the current one among the three, so the recursion over categories terminates |
| DataJoining.SupportNeverAfterUsage | orchestration/step5_data_joining.py:183 | nothing follows usage, and support is never chosen while usage has files, since "support" sorts before "usage" |
| DataJoining.PendingJoinSpec | orchestration/step5_data_joining.py:210-234 | the scan stops at the first table lacking a key (naming a missing key) or the first unconfirmed join, and every join before that point is confirmed with its keys present; when it finds neither, every join is confirmed |
| DataJoining.CategoryStep | orchestration/step5_data_joining.py:150-262 | the caller's tables come back with the category's files standardised, and a move to the next category goes to a strictly greater category |
| DataJoining.FilesStep | orchestration/step5_data_joining.py:168-272 | the tables are left as given, and a move on goes to the next category |
| DataJoining.SingleFileStep | orchestration/step5_data_joining.py:169-193 | the tables are left as given, and a move on goes to an existing next category |
| DataJoining.MultiFileStep | orchestration/step5_data_joining.py:196-262 | the tables are left as given, and a move on goes to an existing next category |
| DataJoining.CommitJoin | orchestration/step5_data_joining.py:226-262 | the category's consolidated table becomes the first file inner-joined with file i+1, the join flag is set, the later phases' fields are kept, and a move on goes to an existing next category |
| DataJoining.LocalStep | orchestration/step5_data_joining.py:135-193 | a move to the next category strictly decreases the measure of categories left |
| DataJoining.SingleFileStepSpec | orchestration/step5_data_joining.py:169-193 | a lone file is stored as the category's consolidated table without confirmation; only that category is written, no join flag is set; finishing here completes the phase with no category left |
| DataJoining.MultiFileStepSpec | orchestration/step5_data_joining.py:196-262 | several files write only their category: either nothing, or the clicked join of the first file with file i+1 together with its flag |
| DataJoining.MultiFileStepOutcome | orchestration/step5_data_joining.py:196-262 | an error hands back nothing and leaves the phase open; tables are handed back only with the phase complete; a run without a click that leaves the phase open changes nothing |
| DataJoining.CategoryStepSpec | orchestration/step5_data_joining.py:150-262 | one category's work writes only that category, as a lone standardised file or the clicked join, with the outcome facts above |
| DataJoining.LocalStepFrame | orchestration/step5_data_joining.py:135-164 | a step writes only its working category; with no working category, or one without a date column, only the picked category is recorded |
| DataJoining.LocalStepOutcome | orchestration/step5_data_joining.py:135-193 | the outcome facts hold from the session with the working category set, and a lone file of the working category is stored standardised |
| DataJoining.LocalStepContinue | orchestration/step5_data_joining.py:139-193 | the tables come back with only the working category's files standardised, and a move on goes to a greater category, which becomes the next call's working category |
| DataJoining.IntraKeepsFields | orchestration/step5_data_joining.py:132-277 | a whole call never drops a join flag or a category of the tables, and leaves the later phases' fields alone |
| DataJoining.IntraFrame | orchestration/step5_data_joining.py:132-277 | a call writes only its working category and the categories after it |
| DataJoining.IntraTablesFrame | orchestration/step5_data_joining.py:150-157 | a call replaces the file lists of its working category and the categories after it, and no others |
| DataJoining.IntraWrites | orchestration/step5_data_joining.py:226-262 | a call sets at most the clicked join flag, and with it stores the first standardised file inner-joined with file i+1 (earlier joins are not folded in); every other consolidated table written is a lone standardised file |
| DataJoining.IntraStoresSingleFile | orchestration/step5_data_joining.py:169-180 | a lone file of the working category ends up, standardised, as its consolidated table |
| DataJoining.IntraResult | orchestration/step5_data_joining.py:186-277 | a call that shows an error hands back nothing and leaves the phase open; tables are handed back only with the phase complete and are the consolidated tables; completing the phase leaves no category pending |
| DataJoining.CategoryStepStandardized | orchestration/step5_data_joining.py:150-157 | working on already standardised files gives the same step |
| DataJoining.LocalStepResumable | orchestration/step5_data_joining.py:135-277 | a local step without a click that leaves the phase open is reproduced by the next run without a click |
| DataJoining.IntraResumable | orchestration/step5_data_joining.py:132-277 | a call without a click that leaves the phase open is reproduced exactly (session, tables, result, error) by the next run without a click |
| DataJoining.AvailableSecondaries | orchestration/step5_data_joining.py:287 | the secondaries listed are exactly usage and support where consolidated, in that order |
| DataJoining.PerformCategoryJoin | orchestration/step5_data_joining.py:342-389 | the cast secondary keeps its columns and rows; a category without a date column fails with a KeyError; the merge succeeds exactly when every join key names exactly one column on both prepared sides, and otherwise fails with the KeyError or not-unique ValueError of one key lookup |
| DataJoining.SecondaryBillingDateFails | orchestration/step5_data_joining.py:362-375 | a secondary that already has a BillingDate column gets a second one from the rename, so the merge fails; with every other key found once, it fails with the not-unique ValueError for BillingDate |
| DataJoining.PerformCategoryJoinKeepsBilling | orchestration/step5_data_joining.py:370-375 | the left merge has at least the billing rows and the billing columns first, every (cast) billing row lies inside some result row, and with unique secondary keys there is exactly one result row per billing row |
| DataJoining.FlagAssignments | orchestration/step5_data_joining.py:306-308 | after the three assignments every row has the joined flag True and the other False, no row is added or lost, and no other value changes |
| DataJoining.PresenceFlagsSpec | orchestration/step5_data_joining.py:305-308 | the flags say which category was joined, not which rows matched: every row has the joined category's flag True and the other False, with no other value changed |
| DataJoining.JoinSecondarySpec | orchestration/step5_data_joining.py:294-333 | the secondary is stored as the cast leaves it; the branch answers with the flagged merge exactly when the merge succeeds and keeps it as the final table; a failed merge shows its error and keeps the old final table; the proceed flag is set by its button once there is a table |
| DataJoining.SoleSecondary | orchestration/step5_data_joining.py:287-296 | the one secondary found is usage or support and is consolidated |
| DataJoining.InterStepReplies | orchestration/step5_data_joining.py:279-340 | the inter step answers with a table exactly when billing and exactly one secondary are present and the merge succeeds; that table is the flagged merge and is stored; otherwise the final table is kept |
| DataJoining.InterStepFrame | orchestration/step5_data_joining.py:279-340 | the inter step writes only the final table, the proceed flag and the secondary's table; billing and the intra phase's state are untouched |
| DataJoining.InterStepIsJoin | orchestration/step5_data_joining.py:294-303 | with billing and exactly one secondary present the inter step is the single-secondary branch |
| DataJoining.FlaggedJoinKeepsBilling | orchestration/step5_data_joining.py:300-308 | the flagged merge keeps every billing record, with every value but ProductID and the flags, and with the joined category's flag True |
| DataJoining.InterStepKeepsBilling | orchestration/step5_data_joining.py:279-340 | an answered table keeps every billing record, each with the joined category's flag True |
| DataJoining.PerformCategoryJoinRepeatable | orchestration/step5_data_joining.py:349-364 | merging again with the secondary as the cast left it makes the same attempt |
| DataJoining.JoinSecondaryRepeatable | orchestration/step5_data_joining.py:294-333 | the single-secondary branch, rerun on the session it leaves, answers the same and stores the same tables |
| DataJoining.InterStepRepeatable | orchestration/step5_data_joining.py:279-340 | rerunning the inter step on the session it leaves gives the same reply, error and tables, since the in-place cast is idempotent |
| DataJoining.PostProcessingSpec | orchestration/step5_data_joining.py:452-484 | only a confirmed finish changes the session, and it clears it; every other choice answers with the stored final table, except a download with no table, which shows an error |
| DataJoining.ProcessJoiningPhases | orchestration/step5_data_joining.py:19-106 | unless it clears the session, a run never sets the later phases' flags and never reopens a completed intra phase; while the intra phase is open no run replies with a table |
| DataJoining.ProcessJoiningIntraResult | orchestration/step5_data_joining.py:29-53 | while the intra phase is open a run is the intra call; an error of the call leaves the phase open; once the call hands back its tables the phase is complete, and the run fails with KeyError('CustomerID') exactly when one of those tables lacks that column; a completed phase has no category pending |
| DataJoining.LoneFileStep | orchestration/step5_data_joining.py:29-53 | on a fresh session with one billing file and the proceed click, the file is stored, the phase completes, and the run fails with KeyError('CustomerID') exactly when the file has no CustomerID column |
| DataJoining.LoneFileWithoutCustomerId | orchestration/step5_data_joining.py:42-49 | a lone billing file with only BillingDate and Amount completes the intra phase, yet the run ends with KeyError('CustomerID') |
| DataJoining.PostProcessingUnreachable | orchestration/step5_data_joining.py:19-106 | from a session with the later phases' flags unset, no sequence of runs sets them, so neither post-processing branch ever runs |
| DataJoining.JoinStatsBounded | orchestration/step5_data_joining.py:431-450 | the unique customer and product counts never exceed the records they describe, and stats are shown exactly when a result is given |
| DataJoining.IntraCommitStats | orchestration/step5_data_joining.py:241-248 | after a confirmed intra join, "File1" reports the merged table's count, not the first file's, and the stats never fail |
| JoiningEngine.Engine.constructor | orchestration/step5_data_joining.py:8-17 | a fresh engine holds a cleared session at the chosen level over the given tables |
| JoiningEngine.Engine.Standardize | orchestration/step5_data_joining.py:108-130 | the rename loop computes the standardised table |
| JoiningEngine.Engine.StandardizeFiles | orchestration/step5_data_joining.py:150-157 | the loop computes every file standardised, in order |
| JoiningEngine.Engine.MissingKeyOf | orchestration/step5_data_joining.py:204-215 | no key is reported exactly when the table has every join key, and otherwise the first missing one |
| JoiningEngine.Engine.FindPending | orchestration/step5_data_joining.py:210-234 | the loop finds the first table lacking a key or the first unconfirmed join, as the scan function does |
| JoiningEngine.Engine.IntraPass | orchestration/step5_data_joining.py:135-193 | the pass leaves the session and tables exactly as the local step computes |
| JoiningEngine.Engine.PickCategory | orchestration/step5_data_joining.py:139-142 | only the working category is recorded |
| JoiningEngine.Engine.CategoryPass | orchestration/step5_data_joining.py:150-168 | the pass is the category step, or a KeyError for a category without a date column after the files are standardised |
| JoiningEngine.Engine.FilesPass | orchestration/step5_data_joining.py:168-272 | the pass is the files step |
| JoiningEngine.Engine.SingleFilePass | orchestration/step5_data_joining.py:169-193 | the pass is the single-file step |
| JoiningEngine.Engine.MultiFilePass | orchestration/step5_data_joining.py:196-262 | the pass is the multi-file step |
| JoiningEngine.Engine.CommitJoin | orchestration/step5_data_joining.py:226-262 | the join flag is set and the first file inner-joined with file i+1 is stored; a join before the last ends the call, the last one moves on to the next category or completes the phase and hands back the consolidated tables |
| JoiningEngine.Engine.HandleIntra | orchestration/step5_data_joining.py:132-277 | the recursive handler leaves the session and tables, and returns the result and error, exactly as the intra call computes |
| JoiningEngine.Engine.CastForMerge | orchestration/step5_data_joining.py:347-352 | both sides' ProductID are cast exactly when the level is product and both have the column |
| JoiningEngine.Engine.MergeCast | orchestration/step5_data_joining.py:358-375 | the rename, the key lookups and the left merge compute the merge's result |
| JoiningEngine.Engine.PerformJoin | orchestration/step5_data_joining.py:342-389 | the merge's result is returned and the stored secondary is replaced by its cast |
| JoiningEngine.Engine.HandleInter | orchestration/step5_data_joining.py:279-340 | the handler leaves the session and returns the reply and error exactly as the inter step computes |
| JoiningEngine.Engine.StoreFlagged | orchestration/step5_data_joining.py:305-333 | the flagged table is the reply and the final table, and the proceed flag is set by its button |
| JoiningEngine.Engine.Clear | orchestration/step5_data_joining.py:96 | the session is cleared and the tables kept |
| JoiningEngine.Engine.HandlePostProcessing | orchestration/step5_data_joining.py:452-484 | the handler leaves the session and returns the reply and error exactly as post-processing computes |
| JoiningEngine.Engine.ListConsolidated | orchestration/step5_data_joining.py:42-49 | the listing fails, with KeyError('CustomerID'), exactly when some consolidated table lacks CustomerID |
| JoiningEngine.Engine.ProcessJoiningRun | orchestration/step5_data_joining.py:19-106 | one run leaves the session and tables and returns the reply and error exactly as the page function computes, the debug listing's KeyError included |
| Tables.MergeRow | orchestration/step5_data_joining.py:228-233 | a merged row carries every left value, every right value on a column the left lacks, and exactly the columns of both |
| Tables.NewColumns | orchestration/step5_data_joining.py:228-233 | the columns the merge adds are exactly the right table's columns the left lacks |
| Tables.MatchesSound | orchestration/step5_data_joining.py:228-233 | the matches of a left row are exactly the right rows that agree with it on the keys |
| Tables.InnerJoinCharacterised | orchestration/step5_data_joining.py:228-233 | every inner-merge row is the merge of a left and a right row that agree on the keys, and every such pair yields a row: both directions of the relational definition |
| Tables.InnerRowOrigin | orchestration/step5_data_joining.py:228-233 | each inner-merge row comes from one left and one right row that agree on the keys |
| Tables.InnerRowsComplete | orchestration/step5_data_joining.py:228-233 | each pair of rows agreeing on the keys yields a row of the inner merge |
| Tables.InnerJoinKeysFromBoth | orchestration/step5_data_joining.py:228-233 | the key values of every inner-merge row occur in a row of each input |
| Tables.LeftRowsKeepBase | orchestration/step5_data_joining.py:370-375 | the left merge's rows number at least the base rows, and each base row lies inside one of them |
| Tables.AtMostOneMatch | orchestration/step5_data_joining.py:370-375 | against right rows unique on the keys a left row has at most one match |
| Tables.LeftRowsCountWhenUnique | orchestration/step5_data_joining.py:370-375 | against right rows unique on the keys the left merge has one row per base row, extending it, in order |
| Tables.LeftJoinKeepsBase | orchestration/step5_data_joining.py:370-375 | a left merge keeps every base row inside some result row, starts with the base columns, and with unique right keys has exactly one row per base row, extending it |
| Tables.Occurrences | orchestration/step5_data_joining.py:364 | a name occurs no times exactly when it is no column, and never more often than there are columns |
| Tables.LabelError | orchestration/step5_data_joining.py:370-375 | a key lookup fails exactly unless the key names exactly one column: KeyError when absent, the not-unique ValueError when repeated |
| Tables.MergeKeysError | orchestration/step5_data_joining.py:370-375 | the merge's key lookups fail exactly unless every key names exactly one column on both sides, and a failure is that of one key's lookup |
| Tables.MergeKeysErrorLast | orchestration/step5_data_joining.py:370-375 | once the earlier keys are found once on both sides, the lookups fail as the last key's lookup alone does |
| Tables.RenameColumn | orchestration/step5_data_joining.py:364 | the rename replaces every column called `from` by `to`, keeps all others in place (a `to` already present too), and keeps the row count |
| Tables.RenameOccurrences | orchestration/step5_data_joining.py:364 | after renaming, `to` names as many columns as `to` and `from` did before, and `from` none |
| Tables.RenameRow | orchestration/step5_data_joining.py:364 | in a row, the value of `from` moves to `to`, `from` disappears, and every other value stays |
| Tables.AssignColumn | orchestration/step5_data_joining.py:306-308 | assigning a constant keeps an existing column in place or appends a new one, and sets it in every row and nothing else |
| Tables.NatToText | orchestration/main_orchestration.py:299 | the decimal text is non-empty and made of digits only |
| Tables.ValueToText | orchestration/step5_data_joining.py:351-352 | casting a cell gives text, and text stays as it is |
| Tables.CastColumnToText | orchestration/step5_data_joining.py:351-352 | the cast keeps the columns, the rows and their keys, casts the column's cells and leaves every other cell alone |
| Tables.CastIdempotent | orchestration/step5_data_joining.py:351-352 | casting a column twice is casting it once |
| Tables.DistinctValuesBound | orchestration/step5_data_joining.py:439-448 | the unique count never exceeds the row count, and counts exactly the column's non-null values |
| Tables.DistinctValuesMembers | orchestration/step5_data_joining.py:439-448 | the distinct values are exactly the non-null values the column takes in some row |
| Tables.HasDuplicateKeyIff | agents/aggregation_agent.py:93-96 | the row-by-row duplicate test holds exactly when two distinct rows share the group-by values |
| Text.StripSpec | agents/clean_suggestions_agent.py:80-83 | `strip` gives a slice that neither starts nor ends with whitespace, and everything cut off is whitespace |
| Text.StripTrimmed | agents/clean_suggestions_agent.py:83 | a string without whitespace at either end is its own strip |
| Text.StripIdempotent | agents/clean_suggestions_agent.py:83 | stripping twice is stripping once |
| Text.Split | agents/clean_suggestions_agent.py:80 | splitting gives at least one piece and no piece holds the separator |
| Text.JoinSplit | agents/clean_suggestions_agent.py:80 | joining the pieces of a split with the separator gives back the text |
| Text.SplitJoin | agents/clean_suggestions_agent.py:80 | splitting the join of separator-free pieces gives back the pieces |
| Text.Find | agents/aggregation_agent.py:170 | `find` is -1 exactly when the character is absent, and otherwise its first position |
| Text.RFind | agents/aggregation_agent.py:171 | `rfind` is -1 exactly when the character is absent, and otherwise its last position |
| Text.Lower | agents/aggregation_agent.py:39 | lower-casing keeps the length and maps each character through the ASCII lower-case map |
| Text.LowerIdempotent | agents/aggregation_agent.py:72 | lower-casing twice is lower-casing once |
| Text.TitleOfWord | orchestration/main_orchestration.py:299 | a word of lower-case letters is title-cased by upper-casing its first letter |

## Left out

- Streamlit rendering: titles, markdown, previews, spinners, summaries, status messages, progress bars and `rerun_script`. A click is an input; a rerun ends the call.
- Progress fractions (main_orchestration.py:66, cleaning_app.py:97 and 190): floating point.
- The reset button and the step-2 handoff: a reset is `session.clear()`, modelled only where step 5 calls it; `Step2DataMapping` and the agents behind it are not part of this model.
- LLM calls, prompts, file loading and category identification (`load_and_identify_category`), `validate_tables`, and the generation and execution of cleaning code: their results are parameters (`content`, `loaded`, `validated`, `Applier`).
- `json.loads`: a partial parser parameter; only the text extraction and the error-to-`{}` paths are modelled.
- pandas aggregation itself (`groupby(...).agg`), `describe`, `mode`, dtype classification (`DataTypeUtils`): column information and dtype classes are inputs; the mode function is a named method value.
- Tables.InnerJoin: merge keys are compared cell by cell, so an `Int` key never matches a `Text` key and the merge goes on. pandas instead raises ValueError ("You are trying to merge on int64 and object columns") when one key column is numeric or a datetime and the other holds strings. Column dtypes are not part of the model. So where the source's intra join fails at line 228, the model commits an empty inner join and sets its confirmation flag.
- DataJoining.PerformCategoryJoin: the same dtype check is absent from the inter merge. Only ProductID is cast (lines 349-352); CustomerID and the date key clash as above. Where the source shows "Error in joins" (lines 336-339), the model answers with a flagged left join whose billing rows are all unmatched.
- DataJoining.IntraStep: step 2 passes None for a category without files (main_orchestration.py:225-229). The model's `tables` holds the empty list instead. On None the source fails with a TypeError at `enumerate(None)` (line 152); the model fails with the UnboundLocalError of line 265. Both return None and leave the same session; only the error text shown differs.
- Cleaning.Applier: code generation and execution are one function of the current table and the suggestion. So two identical suggestions tried on the same unchanged table get the same outcome, where a fresh LLM call need not give it. No proved property relies on this beyond the model's own determinism.
- pandas merge suffixes: on a shared non-key column the model keeps the left value instead of writing `_x`/`_y` columns.
- Missing values: `Null` is one value; NaN keys are not dropped by grouping, and `astype(str)` of a missing value is the text "nan".
- Case mapping and `title`: ASCII letters only.
- Key order of Python dicts where it only affects which of several errors is reported first.
- The join-order radio of the demo page and the demo's sample tables: the demo page only exercises the UI.
- Import errors in step3 and step4 (undefined `pd`, `Task`, and `self` at step4_data_aggregation.py:161): the model describes what the functions do when they run.
- Tables.RenameRow: a row is a map, so after a rename onto a column the table already has, the row keeps only the renamed value where pandas keeps both same-named cells. The merge's key lookups see the repeated column name, so a repeated join key still fails as in pandas.
- DataJoining.StandardizeColumns: a table with both `CustomerID` and `CustomerID_` (or another pair of the five) gets two same-named columns; what pandas then does with them (a duplicate key in an intra merge, a DataFrame instead of a Series in the debug listing) is not modelled beyond the repeated name in the column list.
- DataJoining.ProcessJoining: view and download only answer with the stored table; the CSV encoding and the download button are not modelled.
- DataJoining.JoinStatsOf: the message text is not built; the figures it shows are.
