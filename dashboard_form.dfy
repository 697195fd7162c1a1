/**
 * The registry operations of external-dashboard-form.php: the older create
 * path run from the admin page (edf_process_form_submission), the removal
 * used by the dashboard widget (edf_remove_form), and the widget control's
 * guard that decides whether to remove. The file loads
 * admin/form-manager.php, and so this module imports FormManager.
 */
module DashboardForm {
  import opened Php
  import opened FormManager

  /** The settings notice edf_process_form_submission leaves, by its code. */
  datatype Notice = MissingFields | InvalidName | InvalidUrl | FormAdded

  /**
   * edf_process_form_submission, given the posted `form_name` and `form_url`
   * (None when not posted). Unlike edf_save_form it tests the sanitized
   * name and the escaped url, and it reports the form as added whatever the
   * option write reports.
   */
  function ProcessSubmission(forms: Forms, postName: Option<string>, postUrl: Option<string>,
                             now: nat, s: Sanitizers, writeOk: bool): (st: Step<Notice>)
    ensures st.result == MissingFields <==> postName.None? || postUrl.None?
    ensures st.result == InvalidName <==>
              postName.Some? && postUrl.Some? && Empty(s.text(postName.value))
    ensures st.result == InvalidUrl <==>
              && postName.Some? && postUrl.Some? && !Empty(s.text(postName.value))
              && !HasHttpsPrefix(s.url(postUrl.value))
    ensures st.result != FormAdded || !writeOk ==> st.forms == forms
    ensures st.result == FormAdded && writeOk ==>
              && postName.Some? && postUrl.Some?
              && Put(forms, st.forms, NewId(now),
                     FormRecord(NewId(now), s.text(postName.value), s.url(postUrl.value)))
    ensures IdsMatchKeys(forms) ==> IdsMatchKeys(st.forms)
    ensures AllSecure(forms) ==> AllSecure(st.forms)
  {
    if postName.None? || postUrl.None? then Step(forms, MissingFields)
    else
      var name := s.text(postName.value);
      var url := s.url(postUrl.value);
      if Empty(name) then Step(forms, InvalidName)
      else if !ValidateSecureUrl(url) then Step(forms, InvalidUrl)
      else
        var id := NewId(now);
        var updated := forms[id := FormRecord(id, name, url)];
        Step(if writeOk then updated else forms, FormAdded)
  }

  /**
   * edf_remove_form: removes a present id and returns true, whatever the
   * option write reports; an absent id gives false and no change.
   */
  function Remove(forms: Forms, formId: string, writeOk: bool): (st: Step<bool>)
    ensures st.result <==> formId in forms
    ensures !(st.result && writeOk) ==> st.forms == forms
    ensures st.result && writeOk ==> Removed(forms, st.forms, formId)
    ensures IdsMatchKeys(forms) ==> IdsMatchKeys(st.forms)
    ensures AllSecure(forms) ==> AllSecure(st.forms)
  {
    if formId in forms then
      var updated := forms - {formId};
      Step(if writeOk then updated else forms, true)
    else Step(forms, false)
  }

  /**
   * The guard of edf_dashboard_widget_control: the widget for `formId`
   * removes its form only when the posted `edf_remove_form` names it.
   */
  function RemovalRequested(posted: Option<string>, formId: string): (requested: bool)
    ensures requested ==> posted.Some?
    ensures posted.Some? ==> (requested <==> posted.value == formId)
  {
    posted.Some? && posted.value == formId
  }

  // ---------------------------------------------------------------------
  // Properties
  // ---------------------------------------------------------------------

  /** One posted removal value triggers the control of at most one widget. */
  lemma RemovalTargetsOneWidget(posted: Option<string>, a: string, b: string)
    requires RemovalRequested(posted, a) && RemovalRequested(posted, b)
    ensures a == b
  {
  }

  /**
   * edf_remove_form and edf_delete_form agree on every id that is not
   * PHP-empty when the write succeeds; edf_remove_form still reports true
   * when the write fails.
   */
  lemma RemoveAgreesWithDelete(forms: Forms, formId: string, writeOk: bool)
    requires !Empty(formId)
    ensures Remove(forms, formId, writeOk).forms == Delete(forms, formId, writeOk).forms
    ensures Remove(forms, formId, writeOk).result == (formId in forms)
    ensures Delete(forms, formId, writeOk).result == (formId in forms && writeOk)
  {
  }

  /**
   * When both create paths accept the same posted values in the same
   * second and the write succeeds, they store the same map.
   */
  lemma SubmissionStoresWhatSaveStores(forms: Forms, name: string, url: string, now: nat, s: Sanitizers)
    requires Save(forms, name, url, now, s, true).result.Some?
    requires ProcessSubmission(forms, Some(name), Some(url), now, s, true).result == FormAdded
    ensures ProcessSubmission(forms, Some(name), Some(url), now, s, true).forms
            == Save(forms, name, url, now, s, true).forms
  {
  }

  /**
   * The two create paths test different values: a raw url without the
   * https prefix is refused by edf_save_form but accepted by
   * edf_process_form_submission when esc_url_raw returns an https url.
   */
  lemma CreatePathsDiffer(forms: Forms, now: nat, s: Sanitizers)
    requires s.text("Survey") == "Survey"
    requires s.url("forms.example.com/s1") == "https://forms.example.com/s1"
    ensures Save(forms, "Survey", "forms.example.com/s1", now, s, true).result.None?
    ensures ProcessSubmission(forms, Some("Survey"), Some("forms.example.com/s1"), now, s, true).result
            == FormAdded
  {
    assert !HasHttpsPrefix("forms.example.com/s1") by {
      assert "forms.example.com/s1"[0] != Https[0];
    }
    assert HasHttpsPrefix("https://forms.example.com/s1") by {
      assert "https://forms.example.com/s1"[..|Https|] == Https;
    }
  }

  // ---------------------------------------------------------------------
  // The operations as the plugin runs them
  // ---------------------------------------------------------------------

  /** edf_process_form_submission; returns the notice it adds. */
  method ProcessFormSubmission(option: FormsOption, postName: Option<string>, postUrl: Option<string>,
                               now: nat, s: Sanitizers, writeOk: bool) returns (notice: Notice)
    modifies option
    ensures Step(option.forms, notice) == ProcessSubmission(old(option.forms), postName, postUrl, now, s, writeOk)
  {
    if postName.None? || postUrl.None? {
      return MissingFields;
    }
    var formName := s.text(postName.value);
    var formUrl := s.url(postUrl.value);
    if Empty(formName) {
      return InvalidName;
    }
    if StrPos(formUrl, Https) != Some(0) {
      return InvalidUrl;
    }
    var forms := GetForms(option);
    var formId := NewId(now);
    forms := forms[formId := FormRecord(formId, formName, formUrl)];
    var _ := option.UpdateOption(forms, writeOk);
    return FormAdded;
  }

  /** edf_remove_form. */
  method RemoveForm(option: FormsOption, formId: string, writeOk: bool) returns (removed: bool)
    modifies option
    ensures Step(option.forms, removed) == Remove(old(option.forms), formId, writeOk)
  {
    var forms := GetForms(option);
    if formId in forms {
      forms := forms - {formId};
      var _ := option.UpdateOption(forms, writeOk);
      return true;
    }
    return false;
  }

  /**
   * edf_dashboard_widget_control for the widget of `formId`, given the
   * posted `edf_remove_form` value. Returns whether it took the removal
   * branch (the one that reloads the page); otherwise it only renders.
   */
  method DashboardWidgetControl(option: FormsOption, posted: Option<string>, formId: string, writeOk: bool)
    returns (reload: bool)
    modifies option
    ensures reload == RemovalRequested(posted, formId)
    ensures option.forms == if reload then Remove(old(option.forms), formId, writeOk).forms else old(option.forms)
  {
    if posted.Some? && posted.value == formId {
      var _ := RemoveForm(option, formId, writeOk);
      return true;
    }
    return false;
  }
}
