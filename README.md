# External Dashboard Forms: the form registry in Dafny

External Dashboard Forms is a WordPress plugin. It lets an administrator
register external HTTPS form URLs and shows each one as an iframe widget on
the dashboard. Its logic is a form registry: a map from a form id to a record
`{id, name, url}`, kept as a whole in the single option
`external_dashboard_forms`. The registry has list, create, update and delete
operations and an https test. This project models that registry and proves
what it promises.

Files:

- `php.dfy` (module `Php`): the PHP built-ins the registry depends on.
  `empty()` on a string is true for `""` and `"0"`. `strpos()` is a search for
  the first occurrence, and `false` becomes `None`. `DecimalString` is the
  decimal text of `time()` in `'form_' . time()`.
- `form_manager.dfy` (module `FormManager`): admin/form-manager.php. It holds the
  record type, the option store (class `FormsOption`), one specification
  function per operation (`Save`, `Update`, `Delete`) and the imperative
  methods that follow the PHP code (`GetForms`, `SaveForm`, `UpdateForm`,
  `DeleteForm`, `AjaxRemoveForm`).
- `dashboard_form.dfy` (module `DashboardForm`): external-dashboard-form.php.
  It holds the older create path (`ProcessSubmission` / `ProcessFormSubmission`),
  the widget's removal (`Remove` / `RemoveForm`) and the widget control's guard
  (`RemovalRequested` / `DashboardWidgetControl`).

Each mutating operation is a specification function returning a `Step`:
the map left in the option and the value returned. Its `ensures` clauses state
the rejection conditions, "unchanged on failure", "only this key changes", and
that the invariant "every record's id equals its key" is kept. The method that
mirrors the PHP code reads the whole map, changes one key and writes the whole
map back. Its `ensures` clause equates the new option value and the return
value with that function.

Inputs from the host are parameters:

- `now` stands for `time()`.
- `writeOk` stands for the result of `update_option`. When it is false the
  stored map stays as it was. This covers a failed write, and also WordPress
  returning false for an unchanged value, since then the stored map already
  equals the new one.
- `Sanitizers` holds two arbitrary functions: `text` for `sanitize_text_field`
  and `url` for `esc_url_raw`. Nothing is assumed about them, except where a
  lemma states a hypothesis.
- A posted request field is an `Option<string>`: `None` means it was not sent.

In three places the code does less than its own comments and messages say:

- The code comments "Create unique ID" (admin/form-manager.php:43) and
  "Generate unique ID" (external-dashboard-form.php:175) describe the id as
  unique. The id is `'form_' . time()`, so two creates in the same second
  share an id, and the second save overwrites the first
  (`SaveSameSecondOverwrites`). Creates in different seconds never collide
  (`SavesAtDistinctTimesKeepBoth`).
- `edf_save_form` documents "false on failure" (admin/form-manager.php:27),
  and the ajax handler has a "Failed to remove form." reply
  (admin/form-manager.php:159). So a failed write is meant to be reported.
  Yet `edf_process_form_submission` reports "Form added successfully." and
  `edf_remove_form` returns true even when `update_option` fails.
- The admin form says "URL must begin with https://"
  (external-dashboard-form.php:113), and the check is commented "Ensure URL
  is secure" (admin/form-manager.php:35). `edf_save_form` and
  `edf_update_form` test the raw URL but store `esc_url_raw`'s output. So
  every stored URL begins with `https://` only if `esc_url_raw` keeps the
  prefix (`SaveKeepsUrlsSecure`). `edf_process_form_submission` tests the
  escaped URL, so it keeps that invariant with no hypothesis.

## Model

| member | source | states |
|---|---|---|
| `Php.Empty` | admin/form-manager.php:31 | PHP `empty()` on a string holds exactly for a string of at most one character, that character being `0`: `""` and `"0"` |
| `Php.StrPosFrom` | admin/form-manager.php:36 | the `strpos` search from a start index returns the first index at or after it where the needle occurs, and none exactly when there is no occurrence from there on |
| `Php.StrPos` | admin/form-manager.php:133 | `strpos` returns the first index at which the needle occurs, and false (None) exactly when it occurs nowhere |
| `Php.DecimalString` | admin/form-manager.php:44 | the text of `time()` is a non-empty string of digits with no leading zero |
| `Php.DecimalRoundTrip` | admin/form-manager.php:44 | reading the decimal text of `n` back gives `n` |
| `Php.DecimalStringInjective` | admin/form-manager.php:44 | different times have different decimal texts |
| `FormManager.ValidateSecureUrl` | admin/form-manager.php:132-134 | `strpos($url, 'https://') === 0` is true iff the url begins with the literal `https://` |
| `FormManager.NewId` | admin/form-manager.php:44 | a generated id starts with `form_` and is never PHP-empty, so it can later be updated or deleted |
| `FormManager.NewIdInjective` | admin/form-manager.php:44 | forms created in different seconds get different ids |
| `FormManager.Save` | admin/form-manager.php:29-59 | it returns an id iff the name and url are non-empty, the raw url is https and the write succeeds. Otherwise the map is unchanged. On success the id is `form_<now>`, it maps to `{id, sanitize(name), esc(url)}` (overwriting any entry there), every other entry is kept, and ids still equal keys |
| `FormManager.Update` | admin/form-manager.php:69-97 | it returns true iff the id, name and url are non-empty, the url is https, the id is present and the write succeeds. Otherwise the map is unchanged. On success the key set is the same, only that entry is replaced by `{formId, sanitize(name), esc(url)}`, and ids still equal keys |
| `FormManager.Delete` | admin/form-manager.php:105-124 | it returns true iff the id is not PHP-empty, is present and the write succeeds. Otherwise the map is unchanged. On success exactly that key is removed, all other entries are kept, and the id and https invariants hold |
| `FormManager.SaveKeepsUrlsSecure` | admin/form-manager.php:36-51 | if esc_url_raw keeps an https prefix, saving keeps every stored url https |
| `FormManager.UpdateKeepsUrlsSecure` | admin/form-manager.php:76-93 | if esc_url_raw keeps an https prefix, updating keeps every stored url https |
| `FormManager.DeleteUndoesSave` | admin/form-manager.php:44-51 | saving under a fresh id and then deleting that id restores the original map, and the delete returns true |
| `FormManager.UpdateAfterSave` | admin/form-manager.php:84-93 | a just-saved form can be updated iff the new name and url are valid, and the update has the same effect as saving the new values |
| `FormManager.SaveSameSecondOverwrites` | admin/form-manager.php:44-51 | two saves in the same second return the same id. The second replaces the first, and the key set does not grow |
| `FormManager.SavesAtDistinctTimesKeepBoth` | admin/form-manager.php:44-51 | two saves in different seconds both leave their own record in the map |
| `FormManager.SavedFormIsDeletable` | admin/form-manager.php:105-123 | deleting the id a successful save returned succeeds |
| `FormManager.ScenarioId` | admin/form-manager.php:44 | the form created at time 1700000000 gets the id `form_1700000000` |
| `FormManager.SurveyCreated` | admin/form-manager.php:29-59 | creating "Survey" with url `https://forms.example.com/s1` at time 1700000000 returns `form_1700000000` and leaves exactly that one record |
| `FormManager.SurveyDeleted` | admin/form-manager.php:105-124 | deleting that form empties the registry and returns true, and deleting it again returns false |
| `FormManager.InsecureRejected` | admin/form-manager.php:35-38 | creating a form with an `http://` url returns false and leaves the empty registry empty |
| `FormManager.FormsOption.constructor` | admin/form-manager.php:19 | an option never written reads as the empty array |
| `FormManager.FormsOption.UpdateOption` | admin/form-manager.php:54 | the write returns the host's result, and the whole value is replaced only when it succeeds |
| `FormManager.FormsOption.DeleteOption` | uninstall.php:14 | after uninstall the option reads as empty |
| `FormManager.GetForms` | admin/form-manager.php:18-20 | listing returns the stored map and changes nothing |
| `FormManager.SaveForm` | admin/form-manager.php:29-59 | the step-by-step save leaves the option and returns exactly what `Save` specifies |
| `FormManager.UpdateForm` | admin/form-manager.php:69-97 | the step-by-step update leaves the option and returns exactly what `Update` specifies |
| `FormManager.DeleteForm` | admin/form-manager.php:105-124 | the step-by-step delete leaves the option and returns exactly what `Delete` specifies |
| `FormManager.AjaxRemoveForm` | admin/form-manager.php:148-160 | the ajax removal succeeds iff deleting the sanitized posted id (empty when missing) succeeds, with the same effect on the option |
| `DashboardForm.ProcessSubmission` | external-dashboard-form.php:150-189 | a missing field, an empty sanitized name or a non-https escaped url each give their own notice and no change. Otherwise the notice is "added" whatever the write reports, and on a good write only `form_<now>` is set to `{id, sanitized name, escaped url}`. Ids still equal keys, and all urls stay https with no hypothesis |
| `DashboardForm.Remove` | external-dashboard-form.php:260-270 | it returns true iff the id is present, even when the write fails. Only on a good write is exactly that key removed; otherwise the map is unchanged |
| `DashboardForm.RemovalRequested` | external-dashboard-form.php:238 | a widget's control removes only when the posted `edf_remove_form` value equals its own form id |
| `DashboardForm.RemovalTargetsOneWidget` | external-dashboard-form.php:238-239 | one posted value triggers the removal branch of at most one widget |
| `DashboardForm.RemoveAgreesWithDelete` | external-dashboard-form.php:260-270 | for a non-empty id, edf_remove_form leaves the same map as edf_delete_form, but returns presence where edf_delete_form returns presence and write success |
| `DashboardForm.SubmissionStoresWhatSaveStores` | external-dashboard-form.php:173-186 | when both create paths accept the same input with a good write, they store the same map |
| `DashboardForm.CreatePathsDiffer` | external-dashboard-form.php:157-170 | a raw non-https url that esc_url_raw turns into an https url is refused by edf_save_form and accepted by edf_process_form_submission |
| `DashboardForm.ProcessFormSubmission` | external-dashboard-form.php:150-189 | the step-by-step submission leaves the option and returns exactly the notice `ProcessSubmission` specifies |
| `DashboardForm.RemoveForm` | external-dashboard-form.php:260-270 | the step-by-step removal leaves the option and returns exactly what `Remove` specifies |
| `DashboardForm.DashboardWidgetControl` | external-dashboard-form.php:234-246 | the control takes the removal branch iff the guard holds, and then the option becomes what `Remove` gives. Otherwise nothing changes |

## Left out

- WordPress hook wiring (`add_action`, menu and submenu pages, dashboard widget registration, style enqueueing) is host-framework plumbing.
- All HTML and iframe output in `edf_forms_page`, `edf_render_dashboard_widget`, the widget control's form and the reload script, and the loops of `edf_admin_menu` and `edf_setup_dashboard_widgets`, is user interface.
- Nonce and capability checks (`wp_verify_nonce`, `check_ajax_referer`, `current_user_can`) and the JSON replies of `edf_ajax_remove_form` are calls into the host. They end the request, so the model returns only the success flag.
- The internals of `sanitize_text_field`, `esc_url_raw`, `sanitize_title`, `get_option`, `update_option`, `delete_option` and `time()` are host code. They are parameters or arbitrary functions.
- `add_settings_error` is modelled only by which notice code it is given.
- The order of entries in the PHP array is not kept: a map is unordered. Order only affects display.
- Php.StrPos: it counts characters, while PHP's `strpos` counts bytes, so the index differs after a non-ASCII character. The registry only tests whether the result is 0 for the ASCII needle `https://`, and there the two agree.
- DashboardForm.RemovalRequested: PHP's loose `==` is modelled as string equality. The two differ only for two numeric strings, and generated ids (`form_<digits>`) are never numeric.
- PHP's conversion of numeric-string array keys to integers is not modelled. It does not change which keys are present.
- Requests carrying arrays instead of strings, and an option holding a non-array value, are not modelled.
- Concurrent requests and their lost updates on the whole-map read-modify-write are not modelled. The model covers one request at a time.
- FormManager.SaveKeepsUrlsSecure: it assumes esc_url_raw keeps an https prefix, because the code tests the raw url and stores the escaped one.
- FormManager.UpdateKeepsUrlsSecure: it makes the same assumption as SaveKeepsUrlsSecure, for the same reason.
