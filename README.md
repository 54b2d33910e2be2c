# Contact-Keeper, modelled in Dafny

Contact-Keeper is a React application with three tools and a shell around them.

- **Form builder.** A store holds a form: an ordered list of fields, a theme, two colours, and the id of the selected field.
  - A palette makes new fields from six templates.
  - An editor patches the selected field.
  - A drag-and-drop list reorders the fields, or is meant to.
  - An exporter compiles the form into a standalone HTML document.
- **Contact store.** It supports add, patch, delete, favourite toggle, case-insensitive search, and category and tag filters.
  - Sorted, duplicate-free category and tag lists.
  - A contact form with a validator and a tag editor.
  - The list, favourites and category views built on the store.
- **Resource store and dashboard.** The store holds cloud resources.
  - A four-way filter with chips and a filter count.
  - A resource form that normalises its input.
  - Cards with display rules.
  - Stat cards, and cost-by-type and per-provider breakdowns.
- **Shell.** A sidebar with an active-link rule and a theme toggle, and the resources page's dialog state.

Each core source file becomes one Dafny module of the same name; `Wrappers`, `Text`, `Collections`, `Grouping` and `TagEditor` hold shared helpers.

- **State that the components update** becomes a `class`: the form, contact and resource stores, the drag state, the contact and resource forms, the list filters, the theme and the page dialogs. Its methods state the whole new state.
- **Pure expressions** (`map`, `filter`, `find`, template literals, look-up tables) become functions. Their meaning is proved in lemmas.
- **Loops and in-place accumulation** in the source become methods with loop invariants. `getAllTags` (`ContactContext.ContactStore.GetAllTags`), the cost-by-type `reduce` (`CostBreakdown.CostByType`) and the per-provider `reduce` (`ProviderBreakdown.ProviderStats`) are each proved equal to a specification function. The loop of the drop handler as written (`FieldsBuilder.DragState.HandleDrop`) is proved to change nothing. The validator is a sequence of checks, not a loop.
- **Generated ids and `new Date()`** become parameters `id: string` and `now: int`.
- **The current theme, the path name and the query parameter** become parameters or fields.
- **JavaScript numbers** are `real`.
- **Strings** are `seq<char>`:
  - lower-casing, `trim` and `\s` follow ASCII;
  - `.sort()` compares strings character by character.

## Model

| member | source | states |
|---|---|---|
| FormContext.FieldTypeOf | lib/form-context.tsx:5 | the field type a `type` string denotes: its tag is that string, and it is one of the seven kinds iff the string is |
| FormContext.TagRoundTrip | lib/form-context.tsx:5 | a field type and its `type` string determine each other, so a type reading "text" is always the text kind |
| FormContext.Merge | lib/form-context.tsx:103 | `{ ...field, ...updates }`; its meaning is given by MergeEmpty and UpdatedFields |
| FormContext.MergeEmpty | lib/form-context.tsx:100-105 | merging the empty patch `{}` gives back the same field |
| FormContext.DefaultFormShape | lib/form-context.tsx:48-87 | the default form has four fields with ids "1".."4"; the last is a submit field labelled "Send Message" and the others are required; the theme is light; the colours are #6366f1 and #e0e7ff; the ids are unique |
| FormContext.DefaultForm | lib/form-context.tsx:48-87 | the built-in form; its contents are given by DefaultFormShape |
| FormContext.UpdatedFields | lib/form-context.tsx:100-105 | the length is kept; fields with another id are unchanged; each field with the id is merged with the patch |
| FormContext.AppendKeepsPrefix | lib/form-context.tsx:93-98 | appending grows the list by one, keeps every earlier field in order and puts the new field last |
| FormContext.UpdateUnknownId | lib/form-context.tsx:100-105 | patching an id no field has leaves the list identical |
| FormContext.UpdateEmptyPatch | lib/form-context.tsx:100-105 | an empty patch leaves the list identical, whatever the id |
| FormContext.UpdateKeepsIds | lib/form-context.tsx:103 | a patch without an id keeps the id list, and so keeps ids unique |
| FormContext.RemovedFields | lib/form-context.tsx:107-113 | `fields.filter(f => f.id !== id)`; its meaning is given by RemoveProperties and RemoveKeepsUnique |
| FormContext.RemoveProperties | lib/form-context.tsx:107-113 | after removal no field has the id; the rest is an order-preserving subsequence containing every other field; an absent id changes nothing |
| FormContext.RemoveKeepsUnique | lib/form-context.tsx:110 | removal keeps ids unique |
| FormContext.AppendFreshKeepsUnique | lib/form-context.tsx:96 | appending a field with a fresh id keeps ids unique |
| FormContext.MoveProperties | lib/form-context.tsx:115-122 | the two-splice move keeps the length, puts the old `from` element at `to`, leaves the others in their relative order, and is a permutation |
| FormContext.MoveRoundTrip | lib/form-context.tsx:115-122 | moving i to j and then j to i restores the list |
| FormContext.MovedAt | lib/form-context.tsx:117-119 | every position of the moved list holds the element from one computed source position |
| FormContext.MovedSourceInjective | lib/form-context.tsx:117-119 | different positions draw from different source positions |
| FormContext.MoveKeepsUnique | lib/form-context.tsx:115-122 | a move keeps ids unique |
| FormContext.Moved | lib/form-context.tsx:115-122 | the two `splice` calls; their meaning is given by MoveProperties, MovedAt and MoveRoundTrip |
| FormContext.FormStore.constructor | lib/form-context.tsx:90-91 | the store starts with the default form and no selection |
| FormContext.FormStore.SetForm | lib/form-context.tsx:90 | only the form is replaced |
| FormContext.FormStore.SetSelectedFieldId | lib/form-context.tsx:91 | only the selection changes |
| FormContext.FormStore.AddField | lib/form-context.tsx:93-98 | the field is appended; theme, colours and selection are unchanged |
| FormContext.FormStore.UpdateField | lib/form-context.tsx:100-105 | the fields become the patched list; nothing else changes |
| FormContext.FormStore.RemoveField | lib/form-context.tsx:107-113 | fields with the id are dropped and the selection is cleared unconditionally |
| FormContext.FormStore.ReorderFields | lib/form-context.tsx:115-122 | the fields become the moved list; the selection is unchanged |
| FormContext.FormStore.SetTheme | lib/form-context.tsx:124-126 | only the theme changes |
| FormContext.FormStore.SetPrimaryColor | lib/form-context.tsx:128-130 | only the primary colour changes |
| FormContext.FormStore.SetSecondaryColor | lib/form-context.tsx:132-134 | only the secondary colour changes |
| FormContext.FormStore.ResetForm | lib/form-context.tsx:136-139 | the form is the default form again and the selection is cleared |
| ExportModal.GenerateHTML | components/export-modal.tsx:26-128 | `generateHTML` for the form; its meaning is given by DocumentShape, ThemeColours, BlocksOfRenderedFields and BlockInDocument |
| ExportModal.FieldBlock | components/export-modal.tsx:28-74 | the block one field contributes; BlockByTypeString gives the rule chosen for each type string, and SubmitButton, ControlAround, ChoiceBlockInputs and RenderedBlockNonEmpty its text |
| ExportModal.SelectLines | components/export-modal.tsx:48 | one `<option>` line per option, in order |
| ExportModal.ChoiceLines | components/export-modal.tsx:59-64 | one input-and-label line per option, in order, with the field's type and name |
| ExportModal.DocumentShape | components/export-modal.tsx:78-127 | the output is the document head, then the blocks joined by newlines, then the fixed tail |
| ExportModal.HeadInDocument | components/export-modal.tsx:78-121 | the themed head occurs in the output |
| ExportModal.ThemeColours | components/export-modal.tsx:92-107 | dark gives body #1a1a1a, text #ffffff and container #2d2d2d; any other theme gives #f5f5f5, #000000 and #ffffff; the heading uses the primary colour |
| ExportModal.SubmitButton | components/export-modal.tsx:29-31 | a submit field's block starts with the button opening and the primary colour as background, and ends with the label and `</button>` |
| ExportModal.ControlAround | components/export-modal.tsx:33-56 | a text, email, textarea or select block is the text before the `required` slot, the slot, and the closing |
| ExportModal.AroundIgnoresRequired | components/export-modal.tsx:33-56 | the parts around the slot do not depend on `required` |
| ExportModal.RequiredSlot | components/export-modal.tsx:36-51 | the flag makes exactly one difference: the required block is the other one with `required` inserted in the attribute slot |
| ExportModal.ControlIdName | components/export-modal.tsx:33-56 | the block holds `id` and `name` both set to the field's name (not its id), and the label |
| ExportModal.SelectBlockOptions | components/export-modal.tsx:47-55 | a select block holds the placeholder option and then one option per entry in order; absent or empty options give no entries |
| ExportModal.SelectOptionsAppend | components/export-modal.tsx:48 | one more option adds one more line after a newline |
| ExportModal.ChoiceBlockInputs | components/export-modal.tsx:58-70 | a checkbox or radio block holds the label and one input per option, with the field's type, its name, and the option as value |
| ExportModal.RenderedBlockNonEmpty | components/export-modal.tsx:28-75 | a field's block is empty iff its `type` string is none of the seven known ones |
| ExportModal.BlockByTypeString | components/export-modal.tsx:28-74 | the rule is chosen by the `type` string: "submit" gives the button, "text", "email", "textarea" and "select" a control block, "checkbox" and "radio" a group, any other string the empty block |
| ExportModal.BlocksConcat | components/export-modal.tsx:27-76 | the blocks of two lists are the blocks of each, in order |
| ExportModal.BlocksOne | components/export-modal.tsx:27-76 | a single field gives its block, or nothing when the block is empty |
| ExportModal.BlocksOfRenderedFields | components/export-modal.tsx:73-76 | `filter(Boolean)` keeps exactly the blocks of the rendered fields, one per such field |
| ExportModal.UnrenderedFieldsIgnored | components/export-modal.tsx:73-76 | fields of other types do not change the output, so they add no blank line |
| ExportModal.SameBlock | components/export-modal.tsx:26-128 | a block depends only on what the template reads from the field |
| ExportModal.OutputIgnoresUnreadParts | components/export-modal.tsx:26-128 | the output depends only on theme, primary colour and what is read from each field |
| ExportModal.BlockShowsLabel | components/export-modal.tsx:26-128 | every rendered block contains the label verbatim |
| ExportModal.BlockInDocument | components/export-modal.tsx:26-128 | every rendered field's block occurs in the output |
| ExportModal.LabelsVerbatim | components/export-modal.tsx:26-128 | every rendered field's label occurs unescaped in the output |
| ExportModal.ExportShowsLabels | components/export-modal.tsx:26-128 | the same, for the program's own literal text |
| ExportModal.DefaultFormBlocks | components/export-modal.tsx:27-31 | the default form exports four blocks |
| ExportModal.DefaultFormSendMessage | components/export-modal.tsx:27-31 | the default form's export contains "Send Message" |
| FieldPalette.TemplatesShape | components/field-palette.tsx:16-23 | six templates: text, email, textarea, select, checkbox and radio, in that order, pairwise different, none of them submit |
| FieldPalette.TemplateTypes | components/field-palette.tsx:16-23 | the template types, position by position |
| FieldPalette.NewField | components/field-palette.tsx:33-44 | the id is the generated one; type and label come from the template; the placeholder is "Enter " + lowercased label; not required; the name is "field_" + id; no default and no validation |
| FieldPalette.TemplateOptions | components/field-palette.tsx:41-43 | the three conditional spreads of `options`; their meaning is given by NewFieldOptions |
| FieldPalette.NewFieldOptions | components/field-palette.tsx:41-43 | select and radio get two options, checkbox one, and every other type none |
| FieldPalette.DropdownPlaceholder | components/field-palette.tsx:20 | the dropdown template's placeholder is "Enter dropdown" |
| FieldPalette.NewFieldKeepsUnique | components/field-palette.tsx:32-44 | adding a field with a fresh id keeps ids unique |
| FieldPalette.HandleAddField | components/field-palette.tsx:34 | exactly the new field is appended to the store; nothing else changes |
| FieldEditor.SelectedField | components/field-editor.tsx:16-18 | a found field is in the list and has the selected id; a null selection finds nothing; not found means no field has the id |
| FieldEditor.SelectedIsFirst | components/field-editor.tsx:16-18 | the field found is the first one with the id |
| FieldEditor.View | components/field-editor.tsx:20-24 | the prompt is shown iff no field is found |
| FieldEditor.DanglingSelectionPrompts | components/field-editor.tsx:20-24 | a null or dangling selection shows the prompt |
| FieldEditor.DefaultValueControl | components/field-editor.tsx:77-106 | which default-value control the editor shows; its meaning is given by ControlGating |
| FieldEditor.ShowsOptions | components/field-editor.tsx:108 | `['select', 'radio', 'checkbox'].includes(type)`; its meaning is given by ControlGating |
| FieldEditor.ControlGating | components/field-editor.tsx:77-108 | options appear only for select, radio and checkbox; a default-value box appears for every type but submit, multi-line only for textarea |
| FieldEditor.RequiredValue | components/field-editor.tsx:130 | required is true iff the checkbox state is exactly checked (indeterminate gives false) |
| FieldEditor.ParseOptions | components/field-editor.tsx:117 | the parsed options are non-empty and contain no line break |
| FieldEditor.ParseKeepsLines | components/field-editor.tsx:117 | every non-empty typed line is kept, and there are no more options than lines |
| FieldEditor.OptionsRoundTrip | components/field-editor.tsx:115-117 | options without empty entries and line breaks survive join and re-parse unchanged |
| FieldEditor.EditPatch | components/field-editor.tsx:26-28 | the one-key patch each control sends; its meaning is given by PatchIsOneKey and EditTouchesOnlySelected |
| FieldEditor.PatchIsOneKey | components/field-editor.tsx:26-28 | each control's patch changes its own key of the field and keeps the id |
| FieldEditor.EditTouchesOnlySelected | components/field-editor.tsx:26-28 | an edit changes exactly the fields with the selected id, that one key each, and keeps the id list |
| FieldEditor.HandleUpdateField | components/field-editor.tsx:26-28 | the store receives the one-key patch for the selected id; the selection stays |
| FieldEditor.HandleRemoveField | components/field-editor.tsx:30-32 | the selected field is removed and the selection cleared |
| FieldsBuilder.FindIndex | components/fields-builder.tsx:26-27 | -1 iff no field has the id, otherwise the first position with the id |
| FieldsBuilder.DragState.constructor | components/fields-builder.tsx:13 | nothing is being dragged |
| FieldsBuilder.DragState.HandleDragStart | components/fields-builder.tsx:15-17 | the dragged id becomes the given id |
| FieldsBuilder.DragState.HandleDrop | components/fields-builder.tsx:23-40 | as written, the form and the selection are unchanged after any drop; an ignored drop keeps the dragged id and any other drop clears it |
| FieldsBuilder.DragState.HandleDropReordering | components/fields-builder.tsx:23-40 | the corrected drop moves the dragged field to the target's index when both are found; the dragged id is handled as in the original |
| FieldsBuilder.MoveChangesOrder | components/fields-builder.tsx:30-32 | a real move of fields with unique ids changes the list, so a handler that keeps it cannot be the intended one |
| FieldsBuilder.DefaultFormDropCounterexample | components/fields-builder.tsx:30-36 | dropping field "1" onto "2" in the default form should swap them, yet the handler as written leaves the order unchanged |
| FieldsBuilder.ReorderingPlacesDragged | components/fields-builder.tsx:30-32 | the corrected drop puts the dragged field at the target's index and loses or duplicates none |
| FieldsBuilder.GetFieldIcon | components/fields-builder.tsx:42-53 | the icon table with its fallback; its meaning is given by IconsPerKind and PaletteIconsAgree |
| FieldsBuilder.IconsPerKind | components/fields-builder.tsx:42-53 | the seven known types get seven different icons; any other type gets the 📋 fallback |
| FieldsBuilder.PaletteIconsAgree | components/fields-builder.tsx:42-53 | the builder shows each palette template's own icon |
| FieldsBuilder.SelectCard | components/fields-builder.tsx:77 | clicking a card selects its field and leaves the form alone |
| FieldsBuilder.RemoveCard | components/fields-builder.tsx:97-100 | the trash button removes that field and clears the selection |
| ContactContext.NewContact | lib/contact-context.tsx:79-88 | the new contact has every input field, the given id, and both timestamps set to now |
| ContactContext.MergeContact | lib/contact-context.tsx:92-100 | `{ ...contact, ...updates, updatedAt }`; its meaning is given by MergeContactKeys |
| ContactContext.MergeContactKeys | lib/contact-context.tsx:92-100 | an update stamps updatedAt; untouched keys keep their old values; patched keys take the new ones |
| ContactContext.UpdatedContacts | lib/contact-context.tsx:92-100 | the length is kept; only contacts with the id are merged |
| ContactContext.DeleteProperties | lib/contact-context.tsx:102-104 | delete leaves an order-preserving subsequence without the id that keeps every other contact |
| ContactContext.DeleteAbsent | lib/contact-context.tsx:102-104 | deleting an absent id changes nothing |
| ContactContext.Toggled | lib/contact-context.tsx:106-114 | only contacts with the id change, and only their favourite flag, which flips |
| ContactContext.ToggleTwice | lib/contact-context.tsx:106-114 | toggling twice restores the list |
| ContactContext.SearchMatches | lib/contact-context.tsx:118-125 | the per-contact search test; its meaning is given by Search and SearchIgnoresCase |
| ContactContext.Search | lib/contact-context.tsx:116-127 | an order-preserving subsequence holding exactly the contacts that match: lowercased query in lowercased first name, last name, email or notes, or raw query in phone |
| ContactContext.SearchEmptyQuery | lib/contact-context.tsx:118-126 | the empty query returns every contact |
| ContactContext.SearchIgnoresCase | lib/contact-context.tsx:118-125 | a first-name match ignoring case matches the query as typed and lowercased |
| ContactContext.FilterByCategory | lib/contact-context.tsx:131-136 | an order-preserving subsequence holding exactly the contacts of that category |
| ContactContext.FilterByTag | lib/contact-context.tsx:138-143 | an order-preserving subsequence holding exactly the contacts with that tag |
| ContactContext.CategoriesProperties | lib/contact-context.tsx:145-147 | categories are strictly sorted (so distinct) and a category is listed iff some contact has it |
| ContactContext.TagListMembership | lib/contact-context.tsx:149-155 | a tag is in the flattened list iff some contact has it |
| ContactContext.AllTagsProperties | lib/contact-context.tsx:149-155 | all tags are strictly sorted and a tag is listed iff some contact has it |
| ContactContext.AddToSet | lib/contact-context.tsx:150-153 | adding one contact's tags to the seen set gives the duplicate-free list in first-seen order |
| ContactContext.InitialContacts | lib/contact-context.tsx:34-74 | the sample contacts; their contents are given by InitialContactsShape |
| ContactContext.InitialContactsShape | lib/contact-context.tsx:34-74 | three sample contacts with distinct ids, the first two favourite Work contacts, the third Personal |
| ContactContext.ContactStore.constructor | lib/contact-context.tsx:77 | the store starts with the sample contacts |
| ContactContext.ContactStore.AddContact | lib/contact-context.tsx:79-90 | the new contact is placed first and the rest follow unchanged |
| ContactContext.ContactStore.UpdateContact | lib/contact-context.tsx:92-100 | contacts become the updated list |
| ContactContext.ContactStore.DeleteContact | lib/contact-context.tsx:102-104 | contacts become the filtered list |
| ContactContext.ContactStore.ToggleFavorite | lib/contact-context.tsx:106-114 | contacts become the toggled list |
| ContactContext.ContactStore.GetAllTags | lib/contact-context.tsx:149-155 | the nested loops compute exactly the strictly sorted list of all tags |
| ContactFormDialog.OrElse | components/contact-form-dialog.tsx:38-44 | `x \|\| fallback`: the value unless it is empty |
| ContactFormDialog.InitialFormDataShape | components/contact-form-dialog.tsx:37-45 | a new form is empty with category Personal and no tags; an edit copies the contact, with Personal for an empty category |
| ContactFormDialog.PlainSlice | components/contact-form-dialog.tsx:62 | a run of `[^\s@]+` is a non-empty slice free of space and '@' |
| ContactFormDialog.PatternHasShape | components/contact-form-dialog.tsx:62 | a match of the email pattern has the shape below |
| ContactFormDialog.ShapeHasPattern | components/contact-form-dialog.tsx:62 | an email with that shape matches the pattern |
| ContactFormDialog.EmailPatternMeaning | components/contact-form-dialog.tsx:62 | matching iff: no whitespace, exactly one '@' with text before it, and a '.' in the domain with text on both sides |
| ContactFormDialog.PaddedEmailRejected | components/contact-form-dialog.tsx:60-64 | the format check runs untrimmed, so an email with leading or trailing space fails it |
| ContactFormDialog.EmailExamples | components/contact-form-dialog.tsx:62 | "e@x.io" matches and "e@x@y.io" does not |
| ContactFormDialog.ValidateForm | components/contact-form-dialog.tsx:51-70 | each blank name or phone gets its message; a blank email gets "Email is required" and never the format error; a malformed email gets the format error; the result is true iff there are no errors iff the data is valid |
| ContactFormDialog.FormInput | components/contact-form-dialog.tsx:81-84 | a new contact is submitted as not favourite |
| ContactFormDialog.EditKeepsIdentity | components/contact-form-dialog.tsx:78-79 | an edit keeps id, favourite flag and creation time, stamps updatedAt, and takes every form value |
| ContactFormDialog.ContactForm.constructor | components/contact-form-dialog.tsx:37-48 | the form starts with the initial data, an empty tag input and no errors |
| ContactFormDialog.ContactForm.SetTagInput | components/contact-form-dialog.tsx:47 | only the tag input changes |
| ContactFormDialog.ContactForm.HandleAddTag | components/contact-form-dialog.tsx:90-98 | tags and input follow the shared tag-editor rule; nothing else changes |
| ContactFormDialog.ContactForm.HandleRemoveTag | components/contact-form-dialog.tsx:100-105 | every copy of the tag is removed from the form data |
| ContactFormDialog.ContactForm.HandleSubmit | components/contact-form-dialog.tsx:73-88 | the dialog closes iff the data is valid; invalid data leaves the store alone; valid data updates the edited contact or prepends a new one |
| TagEditor.AddTag | components/contact-form-dialog.tsx:90-98 | `handleAddTag` on the tags and the input; its meaning is given by AddTagCases, AddTagKeepsDistinct and AddThenRemove |
| TagEditor.AddTagCases | components/contact-form-dialog.tsx:90-98 | a blank or already present trimmed tag changes nothing; otherwise the trimmed tag is appended and the input cleared |
| TagEditor.AddTagKeepsDistinct | components/contact-form-dialog.tsx:90-98 | adding keeps the tags distinct, and an added tag is non-empty and does not start with a space |
| TagEditor.AddThenRemove | components/resource-form.tsx:145-154 | removing a tag just added restores the previous tags |
| TagEditor.RemoveTag | components/resource-form.tsx:152-154 | the result holds no copy of the tag |
| TagEditor.RemoveTagKeepsOthers | components/contact-form-dialog.tsx:100-105 | removal leaves an order-preserving subsequence with every other tag's count unchanged |
| ContactList.Displayed | components/contact-list.tsx:23-29 | the displayed list is an order-preserving subsequence of the contacts |
| ContactList.DisplayedMembers | components/contact-list.tsx:23-29 | a non-empty query displays the search matches; otherwise a category other than "all" displays its contacts; otherwise all contacts are displayed |
| ContactList.InitialShowsAll | components/contact-list.tsx:19-29 | the initial state (empty query, "all", grid) shows every contact in order |
| ContactList.QueryIgnoresCategory | components/contact-list.tsx:25-26 | with a non-empty query the category and the view mode make no difference |
| ContactList.Footer | components/contact-list.tsx:119 | the displayed count is at most the total, which is the contact count |
| FavoritesSection.Favorites | components/favorites-section.tsx:10 | an order-preserving subsequence holding exactly the favourite contacts |
| FavoritesSection.EmptyWithoutFavorites | components/favorites-section.tsx:12-14 | nothing is rendered iff no contact is a favourite |
| FavoritesSection.SectionContents | components/favorites-section.tsx:22-27 | the heading count is the number of favourites, and each favourite is shown in order with the grid layout |
| CategoriesPanel.CategoryCount | components/categories-panel.tsx:19-21 | the count is the number of contacts in that exact category |
| CategoriesPanel.Entries | components/categories-panel.tsx:30-40 | one entry per category, in category order, with its count, highlighted iff it is the selected one |
| CategoriesPanel.ListedCountsPositive | components/categories-panel.tsx:17-21 | every listed category has at least one contact |
| CategoriesPanel.AtMostOneHighlighted | components/categories-panel.tsx:33-35 | no two entries are highlighted, and clicking an entry selects its category |
| CategoriesPanel.OccurrencesDistinct | components/categories-panel.tsx:17-21 | a distinct list holds each value at most once |
| CategoriesPanel.SumCountsTotal | components/categories-panel.tsx:17-21 | over distinct categories covering all contacts, the counts add up to the contact count |
| CategoriesPanel.CountsSumToTotal | components/categories-panel.tsx:17-21 | the panel's counts add up to the number of contacts |
| ResourceContext.TagsInjective | lib/resource-context.tsx:5-13 | different types, statuses or providers are stored as different strings |
| ResourceContext.InitialResources | lib/resource-context.tsx:43-166 | the sample resources; their contents are given by InitialResourcesShape |
| ResourceContext.InitialResourcesShape | lib/resource-context.tsx:43-166 | nine initial resources with ids "1".."9" |
| ResourceContext.NewResource | lib/resource-context.tsx:171-180 | the new resource has every input field, the given id and both timestamps at now |
| ResourceContext.MergeResource | lib/resource-context.tsx:184-195 | `{ ...resource, ...updates, updatedAt }`; its meaning is given by UpdatedResources and ResourceForm.UntouchedEditRoundTrip |
| ResourceContext.UpdatedResources | lib/resource-context.tsx:184-195 | the length and order are kept; only resources with the id are merged |
| ResourceContext.DeletedResources | lib/resource-context.tsx:197-199 | an order-preserving subsequence without the id that keeps every other resource |
| ResourceContext.FindResource | lib/resource-context.tsx:201-204 | none iff no resource has the id; otherwise the first resource with it |
| ResourceContext.DeleteThenFind | lib/resource-context.tsx:197-204 | after deleting an id, looking it up finds nothing |
| ResourceContext.UpdateUnknownId | lib/resource-context.tsx:184-195 | updating an absent id changes nothing |
| ResourceContext.FindAfterAdd | lib/resource-context.tsx:171-204 | a resource added under a fresh id is found by that id |
| ResourceContext.ResourceStore.constructor | lib/resource-context.tsx:169 | the store starts with the initial resources |
| ResourceContext.ResourceStore.AddResource | lib/resource-context.tsx:171-182 | the new resource is appended |
| ResourceContext.ResourceStore.UpdateResource | lib/resource-context.tsx:184-195 | resources become the updated list |
| ResourceContext.ResourceStore.DeleteResource | lib/resource-context.tsx:197-199 | resources become the filtered list |
| ResourceContext.ResourceStore.GetResourceById | lib/resource-context.tsx:201-204 | a found resource is in the store with that id; nothing is found iff no resource has it |
| StatsCards.ComputeStats | components/stats-cards.tsx:17-20 | the four statistics; their meaning is given by StatsAfterAppend, NoResourcesStats and ActiveAndErrorsWithinTotal |
| StatsCards.ActiveAndErrorsWithinTotal | components/stats-cards.tsx:18-19 | active plus error resources never exceed the total |
| StatsCards.StatsAfterAppend | components/stats-cards.tsx:17-20 | one more resource adds one to the total, one to the active or error count per its status, and its cost to the total cost |
| StatsCards.NoResourcesStats | components/stats-cards.tsx:17-46 | with no resources every figure is zero and the error card reads "All clear" |
| StatsCards.ErrorTrend | components/stats-cards.tsx:45-46 | "Needs attention" iff some resource is in error; "All clear" iff the trend is up iff there are no errors |
| CostBreakdown.TypeTotalSnoc | components/cost-breakdown.tsx:46-52 | one more resource adds its cost to its own type's total only |
| CostBreakdown.TypeTotalIsKeySum | components/cost-breakdown.tsx:46-52 | a type's total is the sum over its group |
| CostBreakdown.CostEntriesMeaning | components/cost-breakdown.tsx:46-52 | one entry per type present, in first-seen order, with that type's total; a type has an entry iff some resource has it |
| CostBreakdown.CostEntriesSnoc | components/cost-breakdown.tsx:46-52 | one step of the `reduce` (new key or in-place add) updates the entries exactly |
| CostBreakdown.CostByType | components/cost-breakdown.tsx:46-52 | the accumulating loop computes the specified entries |
| CostBreakdown.ChartEntryOf | components/cost-breakdown.tsx:54-60 | one bar of the chart data; its meaning is given by ChartLabel and ChartLabelsDistinct |
| CostBreakdown.ChartLabel | components/cost-breakdown.tsx:56 | a bar is labelled with its type, first letter upper-cased ("Compute"), and carries the type's cost |
| CostBreakdown.ChartLabelsDistinct | components/cost-breakdown.tsx:56 | different types get different labels |
| CostBreakdown.InsertKeepsOrder | components/cost-breakdown.tsx:60 | inserting into a list sorted by descending cost keeps it sorted |
| CostBreakdown.InsertAddsCost | components/cost-breakdown.tsx:60 | inserting adds the entry's cost to the sum |
| CostBreakdown.SortByCost | components/cost-breakdown.tsx:60 | the sorted bars are a permutation, by non-increasing cost, with the same sum |
| CostBreakdown.ChartData | components/cost-breakdown.tsx:54-60 | the sorted chart data; its meaning is given by ChartBars, ChartSumsToTotal and ChartBarsArePresentTypes |
| CostBreakdown.ChartSumsToTotal | components/cost-breakdown.tsx:54-60 | the bars add up to the total cost of all resources |
| CostBreakdown.ChartBars | components/cost-breakdown.tsx:54-60 | one bar per type present, sorted by descending cost, and every present type has its bar |
| CostBreakdown.ChartBarsArePresentTypes | components/cost-breakdown.tsx:54-60 | every bar belongs to a type present, with that type's total |
| CostBreakdown.BarColour | components/cost-breakdown.tsx:103 | the colour index lies in 1..5 |
| CostBreakdown.BarColoursCycle | components/cost-breakdown.tsx:103 | colours repeat every five bars and step by one |
| ProviderBreakdown.ProviderTotalsSnoc | components/provider-breakdown.tsx:30-40 | one more resource adds one and its cost to its own provider only |
| ProviderBreakdown.ProviderCountIsUnitSum | components/provider-breakdown.tsx:30-40 | a provider's count is the sum of ones over its group |
| ProviderBreakdown.ProviderCountIsGroupSize | components/provider-breakdown.tsx:30-40 | a provider's count is the size of its group |
| ProviderBreakdown.ProviderCostIsKeySum | components/provider-breakdown.tsx:30-40 | a provider's cost is the sum over its group |
| ProviderBreakdown.ProviderEntriesSnoc | components/provider-breakdown.tsx:30-40 | one step of the `reduce` (create the entry, or increment it in place) updates the entries exactly |
| ProviderBreakdown.ProviderStats | components/provider-breakdown.tsx:30-40 | the accumulating loop computes the specified entries |
| ProviderBreakdown.EntryIffPresent | components/provider-breakdown.tsx:32-34 | a provider has an entry iff some resource uses it |
| ProviderBreakdown.EntryTotals | components/provider-breakdown.tsx:30-40 | each entry's count is the size of its provider's group and at least one; its cost is the group's total |
| ProviderBreakdown.CountsSumToTotal | components/provider-breakdown.tsx:30-42 | the counts add up to the number of resources |
| ProviderBreakdown.CostsSumToTotal | components/provider-breakdown.tsx:30-40 | the costs add up to the total cost |
| ProviderBreakdown.ChartColour | components/provider-breakdown.tsx:6-25 | each provider's colour index lies in 1..3 |
| ProviderBreakdown.ConfigDistinct | components/provider-breakdown.tsx:6-25 | different providers have different names, short names and colours |
| ResourceList.Filtered | components/resource-list.tsx:48-64 | an order-preserving subsequence holding exactly the resources that pass all four checks |
| ResourceList.NoCriteriaShowsAll | components/resource-list.tsx:49-63 | empty search and no filters show every resource in order |
| ResourceList.SearchIgnoresCase | components/resource-list.tsx:50-54 | the search text matches the same as its lowercased form |
| ResourceList.TypeFilterSelects | components/resource-list.tsx:55 | under a type filter every shown resource has that type |
| ResourceList.ActiveFilterCount | components/resource-list.tsx:66-69 | the active-filter count; its meaning is given by NoActiveFilters |
| ResourceList.NoActiveFilters | components/resource-list.tsx:66-69 | the count is zero iff the type is "all" and both lists are empty, and then only the search decides |
| ResourceList.Checked | components/resource-list.tsx:128-132 | checking appends; unchecking removes every copy; other values keep their counts |
| ResourceList.CheckThenUncheck | components/resource-list.tsx:128-150 | checking a new value and then unchecking it restores the list |
| ResourceList.InitialTypeFilter | components/resource-list.tsx:41-43 | "all" iff no (or an empty or "all") initial type is given, otherwise the given type |
| ResourceList.ResourceListState.constructor | components/resource-list.tsx:40-45 | empty search, the initial type filter, no status or provider filters |
| ResourceList.ResourceListState.SetSearch | components/resource-list.tsx:86 | only the search changes |
| ResourceList.ResourceListState.SetTypeFilter | components/resource-list.tsx:93 | only the type filter changes |
| ResourceList.ResourceListState.SetStatusChecked | components/resource-list.tsx:127-132 | only the status list changes, per the check rule |
| ResourceList.ResourceListState.SetProviderChecked | components/resource-list.tsx:145-150 | only the provider list changes, per the check rule |
| ResourceList.ResourceListState.RemoveStatusChip | components/resource-list.tsx:204-206 | the chip's status is removed from the list |
| ResourceList.ResourceListState.RemoveProviderChip | components/resource-list.tsx:215-216 | the chip's provider is removed from the list |
| ResourceList.ResourceListState.ClearFilters | components/resource-list.tsx:71-75 | type "all", both lists empty and the search kept, so the filter count is zero |
| ResourceList.ClearedShowsSearchMatches | components/resource-list.tsx:71-75 | after clearing, exactly the search matches are shown |
| ResourceList.ShowingCounts | components/resource-list.tsx:233 | "Showing X of Y": X is at most Y, and Y is the resource count |
| ResourceForm.Regions | components/resource-form.tsx:52-56 | four regions per provider |
| ResourceForm.RegionsShape | components/resource-form.tsx:52-56 | the first regions are us-east-1, us-central1 and eastus; no region belongs to two providers |
| ResourceForm.DefaultValues | components/resource-form.tsx:71-125 | a new resource starts empty, compute, active, aws, us-east-1, cost 0, no tags; an edit copies the resource |
| ResourceForm.OrUndefined | components/resource-form.tsx:131-133 | `x \|\| undefined`: present iff the number is neither missing, NaN nor zero |
| ResourceForm.SubmittedInput | components/resource-form.tsx:127-134 | the submitted data carries the form values, the local tags, and the normalised specs |
| ResourceForm.EditAgreesWithAdd | components/resource-form.tsx:127-142 | an edit gives the resource that an add of the same data would have built, keeping id and creation time |
| ResourceForm.UntouchedEditRoundTrip | components/resource-form.tsx:127-142 | submitting an untouched edit changes only updatedAt, unless some spec is zero |
| ResourceForm.ZeroSpecDropped | components/resource-form.tsx:131 | a zero CPU value is dropped on an untouched edit |
| ResourceForm.SpecInputs | components/resource-form.tsx:156-157 | CPU and memory appear iff compute or container; storage iff compute, storage or database; both iff compute |
| ResourceForm.ResourceFormState.constructor | components/resource-form.tsx:98-125 | the form starts with the default values, the resource's tags and an empty input |
| ResourceForm.ResourceFormState.SelectProvider | components/resource-form.tsx:231-234 | the provider is set and the region reset to its first region, which belongs to it |
| ResourceForm.ResourceFormState.SelectType | components/resource-form.tsx:96 | only the type changes |
| ResourceForm.ResourceFormState.SetTagInput | components/resource-form.tsx:60 | only the tag input changes |
| ResourceForm.ResourceFormState.AddTag | components/resource-form.tsx:145-150 | tags and input follow the shared tag-editor rule |
| ResourceForm.ResourceFormState.RemoveTag | components/resource-form.tsx:152-154 | every copy of the tag is removed |
| ResourceForm.ResourceFormState.OnSubmit | components/resource-form.tsx:127-143 | editing updates the resource, otherwise one is appended; the dialog closes |
| ResourceCard.TypeColour | components/resource-card.tsx:27-64 | each type's colour index lies in 1..5 |
| ResourceCard.StatusVariant | components/resource-card.tsx:66-87 | the destructive badge iff error, the default badge iff active |
| ResourceCard.LabelsDistinct | components/resource-card.tsx:27-93 | every type, status and provider has its own label (gcp is "GCP"); only compute and serverless share a colour |
| ResourceCard.Shown | components/resource-card.tsx:172-188 | a spec row shows iff the value is present and non-zero |
| ResourceCard.SpecRows | components/resource-card.tsx:172-195 | at most three rows; each row appears iff its value is shown, and it carries that value |
| ResourceCard.Tags | components/resource-card.tsx:204-218 | no tag row iff no tags; otherwise the first min(3, n) tags as chips, and a "+N" chip iff n > 3, with chips plus N equal to n |
| AppSidebar.NavigationShape | components/app-sidebar.tsx:36-55 | two groups of two and six items, with one item for every resource type |
| AppSidebar.PathOf | components/app-sidebar.tsx:97 | the path part of an href is a prefix of it without any '?' |
| AppSidebar.PathOfIsFirstPiece | components/app-sidebar.tsx:97 | it is the first piece of `href.split('?')` |
| AppSidebar.IsActive | components/app-sidebar.tsx:95-97 | the active-link rule; its meaning is given by DashboardActiveOnlyAtRoot, PlainLinkActive and ResourcesPathActivatesAll |
| AppSidebar.DashboardActiveOnlyAtRoot | components/app-sidebar.tsx:95-97 | the dashboard is active iff the path name is exactly "/" |
| AppSidebar.PlainLinkActive | components/app-sidebar.tsx:95-97 | a link without a query is active iff the path name starts with it |
| AppSidebar.ResourcesPathActivatesAll | components/app-sidebar.tsx:41-97 | below "/resources", All Resources and all six type links are active together |
| AppSidebar.NextTheme | components/app-sidebar.tsx:132 | dark toggles to light and anything else to dark |
| AppSidebar.ToggleTwice | components/app-sidebar.tsx:132 | toggling twice restores dark or light, and turns any other value into light |
| AppSidebar.ThemeState.constructor | components/app-sidebar.tsx:59 | the theme starts as given |
| AppSidebar.ThemeState.Toggle | components/app-sidebar.tsx:132 | the theme becomes the toggled one |
| ResourcesPage.Title | app/resources/page.tsx:38-43 | "All Resources" for a null or empty type; otherwise the type with its first letter upper-cased, then " Resources" |
| ResourcesPage.ComputeTitle | app/resources/page.tsx:40 | "compute" gives "Compute Resources" |
| ResourcesPage.ListTypeArgument | app/resources/page.tsx:61 | the list receives the type unless it is null or empty |
| ResourcesPage.TitleAgreesWithFilter | app/resources/page.tsx:38-61 | the title and the list's initial type filter agree: no type gives "All Resources" and the filter "all" |
| ResourcesPage.PageState.constructor | app/resources/page.tsx:18-21 | both dialogs closed, nothing being edited or deleted |
| ResourcesPage.PageState.HandleAddResource | app/resources/page.tsx:23-26 | the form opens with nothing being edited; the delete state is untouched |
| ResourcesPage.PageState.HandleEditResource | app/resources/page.tsx:28-31 | the form opens on the resource; the delete state is untouched |
| ResourcesPage.PageState.HandleDeleteResource | app/resources/page.tsx:33-36 | the delete dialog opens on the resource; the form state is untouched |
| ResourcesPage.PageState.SetFormOpen | app/resources/page.tsx:71 | only the form's open flag changes |
| ResourcesPage.PageState.SetDeleteOpen | app/resources/page.tsx:77 | only the delete dialog's open flag changes |
| Text.Capitalize | app/resources/page.tsx:40 | same length, first character upper-cased, the rest kept |
| Text.TrimEmptyIffBlank | components/contact-form-dialog.tsx:54-66 | a string trims to empty iff it is all whitespace |
| Text.TrimsToEmpty | components/contact-form-dialog.tsx:54 | the `!s.trim()` test is true iff the string is blank |
| Text.SortedDistinct | lib/contact-context.tsx:145-147 | the result is strictly sorted and holds exactly the strings of the input |

## Left out

- JSX, CSS, Tailwind classes and the component libraries (dialogs, selects, cards, recharts, next-themes) are view code and are not modelled.
- react-hook-form's own validation of the resource form (required name and cost) is not modelled either; `OnSubmit` takes the values as they arrive.
- Clipboard copy, file download and their timers in the export dialog are browser I/O.
- ContactContext.NewContact and ResourceContext.NewResource: one `now` stands for the two `new Date()` calls, so the model gives `createdAt` and `updatedAt` the same value, which the source does not guarantee.
- Random ids and `new Date()` are parameters (`id`, `now`); whether ids are fresh is a precondition of the uniqueness lemmas, not something the model produces.
- Rounded percentages (`Math.round`, components/stats-cards.tsx:36 and components/provider-breakdown.tsx:57) are floating-point display arithmetic, and `toLocaleString` is locale formatting. Costs are exact reals.
- `toLowerCase`, `trim` and `\s` follow ASCII only; Unicode case mapping and Unicode whitespace are not modelled.
- `.sort()` on strings compares character values, which agrees with UTF-16 code units only inside the Basic Multilingual Plane.
- CostBreakdown.SortByCost: the chart sort is modelled as a stable insertion sort by descending cost. Only order, permutation and sum are proved, not how equal costs are ordered.
- FieldsBuilder.GetFieldIcon: looking a type up in a plain object also finds inherited keys such as "constructor"; the model treats every unknown type as the fallback.
- ResourceCard.Shown: React renders a stray "0" for `cpu && ...` when the value is zero; the model only says the row is hidden. NaN values are not modelled.
- FormContext.FormStore.ReorderFields: requires both indices in range. Out of range, `splice` would insert `undefined` into the list, which is not a field. The only caller in the repository is the corrected drop handler, which passes found indices.
- FieldEditor.HandleUpdateField and FieldEditor.HandleRemoveField require a selected field, because the editor renders its controls only when one is found.
- FormContext.FormStore.RemoveField clears the selection even when another field was selected, as the code does; it does not clear the selection only when the removed field was the selected one.
- ExportModal: the field names of fields without a name print as "undefined", as in the code; HTML escaping is deliberately absent, as in the code.
- The dropdown's visible labels in the resource list, and the chip texts, are display only.
- `usePathname` and `useSearchParams` are parameters; the next-themes theme is an `Option<string>` field.
- Hook guards (`useFormBuilder`, `useContacts` and `useResources` throwing outside their provider) are framework wiring.
- The form preview, theme switcher, delete dialogs, contact card and details modal, usage chart, recent activity, responsive preview, settings page, home page and app provider are display or wiring only; they are not part of this model.

## Findings

| source | as written | input that shows it | evidently intended | confidence | as-written member | corrected member |
|---|---|---|---|---|---|---|
| components/fields-builder.tsx:30-36 | the drop handler computes the new order in a local copy, then only calls `updateField(field.id, {})` for every field, so the form never changes | the default form, dragging field "1" onto field "2": the order should become 2, 1, 3, 4 but stays 1, 2, 3, 4 | publish the move with `reorderFields(fromIndex, toIndex)` | not executed | FieldsBuilder.DragState.HandleDrop | FieldsBuilder.DragState.HandleDropReordering |

`FieldsBuilder.DefaultFormDropCounterexample` works out that input. `FieldsBuilder.ReorderingPlacesDragged` proves that the corrected handler puts the dragged field at the target's index and keeps every field.
