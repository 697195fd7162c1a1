/**
 * The form registry of admin/form-manager.php: a map from form id to a
 * record {id, name, url}, kept in the single WordPress option
 * `external_dashboard_forms`, with list, create, update and delete.
 *
 * Each mutating operation is given twice: a specification function that
 * says what the stored map and the return value become (a Step), with the
 * properties the plugin promises in its ensures clauses, and an imperative
 * method that follows the PHP code step by step (validate, read the whole
 * map, change one key, write the whole map back) and is proved to agree
 * with the function.
 */
module FormManager {
  import opened Php

  /** The one scheme a form URL may have. */
  const Https := "https://"

  /** `url` begins with the literal text "https://". */
  predicate HasHttpsPrefix(url: string)
  {
    |Https| <= |url| && url[..|Https|] == Https
  }

  /** One stored form. */
  datatype FormRecord = FormRecord(id: string, name: string, url: string)

  /** The value of the option: form id to record. */
  type Forms = map<string, FormRecord>

  /**
   * The host's sanitizers, whose internals are not modelled:
   * `text` is sanitize_text_field and `url` is esc_url_raw.
   */
  datatype Sanitizers = Sanitizers(text: string -> string, url: string -> string)

  /** What an operation leaves in the option, and what it returns. */
  datatype Step<R> = Step(forms: Forms, result: R)

  /** Every record's `id` field equals the key it is stored under. */
  predicate IdsMatchKeys(forms: Forms)
  {
    forall k :: k in forms ==> forms[k].id == k
  }

  /** Every stored URL is an https URL. */
  predicate AllSecure(forms: Forms)
  {
    forall k :: k in forms ==> HasHttpsPrefix(forms[k].url)
  }

  /** A URL sanitizer that never takes away an https prefix. */
  ghost predicate KeepsHttps(f: string -> string)
  {
    forall u :: HasHttpsPrefix(u) ==> HasHttpsPrefix(f(u))
  }

  /** `after` is `before` with `key` set to `rec` and nothing else changed. */
  predicate Put(before: Forms, after: Forms, key: string, rec: FormRecord)
  {
    && after.Keys == before.Keys + {key}
    && key in after && after[key] == rec
    && forall k :: k in before && k != key ==> after[k] == before[k]
  }

  /** `after` is `before` without `key`, every other entry kept. */
  predicate Removed(before: Forms, after: Forms, key: string)
  {
    && after.Keys == before.Keys - {key}
    && forall k :: k in after ==> after[k] == before[k]
  }

  /** The https test of edf_validate_secure_url: `strpos($url, 'https://') === 0`. */
  function ValidateSecureUrl(url: string): (secure: bool)
    ensures secure <==> HasHttpsPrefix(url)
  {
    StrPos(url, Https) == Some(0)
  }

  /** The id a form created at Unix time `now` gets: `'form_' . time()`. */
  function NewId(now: nat): (id: string)
    ensures !Empty(id) && 5 < |id| && id[..5] == "form_"
  {
    "form_" + DecimalString(now)
  }

  /** Forms created at different seconds get different ids. */
  lemma NewIdInjective(a: nat, b: nat)
    requires NewId(a) == NewId(b)
    ensures a == b
  {
    assert NewId(a)[5..] == DecimalString(a);
    assert NewId(b)[5..] == DecimalString(b);
    DecimalStringInjective(a, b);
  }

  // ---------------------------------------------------------------------
  // Specification functions
  // ---------------------------------------------------------------------

  /**
   * edf_save_form at time `now`, when the option write reports `writeOk`.
   * Returns the new id, or None for PHP's `false`.
   */
  function Save(forms: Forms, name: string, url: string, now: nat, s: Sanitizers, writeOk: bool)
    : (st: Step<Option<string>>)
    ensures st.result.Some? <==> !Empty(name) && !Empty(url) && HasHttpsPrefix(url) && writeOk
    ensures st.result.None? ==> st.forms == forms
    ensures st.result.Some? ==>
              && st.result.value == NewId(now)
              && Put(forms, st.forms, NewId(now), FormRecord(NewId(now), s.text(name), s.url(url)))
    ensures IdsMatchKeys(forms) ==> IdsMatchKeys(st.forms)
  {
    if Empty(name) || Empty(url) then Step(forms, None)
    else if !ValidateSecureUrl(url) then Step(forms, None)
    else
      var id := NewId(now);
      var updated := forms[id := FormRecord(id, s.text(name), s.url(url))];
      if writeOk then Step(updated, Some(id)) else Step(forms, None)
  }

  /** edf_update_form, when the option write reports `writeOk`. */
  function Update(forms: Forms, formId: string, name: string, url: string, s: Sanitizers, writeOk: bool)
    : (st: Step<bool>)
    ensures st.result <==>
              !Empty(formId) && !Empty(name) && !Empty(url) && HasHttpsPrefix(url)
              && formId in forms && writeOk
    ensures !st.result ==> st.forms == forms
    ensures st.result ==>
              && st.forms.Keys == forms.Keys
              && Put(forms, st.forms, formId, FormRecord(formId, s.text(name), s.url(url)))
    ensures IdsMatchKeys(forms) ==> IdsMatchKeys(st.forms)
  {
    if Empty(formId) || Empty(name) || Empty(url) then Step(forms, false)
    else if !ValidateSecureUrl(url) then Step(forms, false)
    else if formId !in forms then Step(forms, false)
    else
      var updated := forms[formId := FormRecord(formId, s.text(name), s.url(url))];
      if writeOk then Step(updated, true) else Step(forms, false)
  }

  /** edf_delete_form, when the option write reports `writeOk`. */
  function Delete(forms: Forms, formId: string, writeOk: bool): (st: Step<bool>)
    ensures st.result <==> !Empty(formId) && formId in forms && writeOk
    ensures !st.result ==> st.forms == forms
    ensures st.result ==> Removed(forms, st.forms, formId)
    ensures IdsMatchKeys(forms) ==> IdsMatchKeys(st.forms)
    ensures AllSecure(forms) ==> AllSecure(st.forms)
  {
    if Empty(formId) then Step(forms, false)
    else if formId !in forms then Step(forms, false)
    else
      var updated := forms - {formId};
      if writeOk then Step(updated, true) else Step(forms, false)
  }

  // ---------------------------------------------------------------------
  // Properties relating the operations
  // ---------------------------------------------------------------------

  /** Saving keeps every stored URL https, provided esc_url_raw keeps the prefix. */
  lemma SaveKeepsUrlsSecure(forms: Forms, name: string, url: string, now: nat, s: Sanitizers, writeOk: bool)
    requires AllSecure(forms) && KeepsHttps(s.url)
    ensures AllSecure(Save(forms, name, url, now, s, writeOk).forms)
  {
  }

  /** Updating keeps every stored URL https, provided esc_url_raw keeps the prefix. */
  lemma UpdateKeepsUrlsSecure(forms: Forms, formId: string, name: string, url: string, s: Sanitizers, writeOk: bool)
    requires AllSecure(forms) && KeepsHttps(s.url)
    ensures AllSecure(Update(forms, formId, name, url, s, writeOk).forms)
  {
  }

  /** A save under a fresh id is undone by deleting that id. */
  lemma DeleteUndoesSave(forms: Forms, name: string, url: string, now: nat, s: Sanitizers)
    requires NewId(now) !in forms
    requires Save(forms, name, url, now, s, true).result.Some?
    ensures Delete(Save(forms, name, url, now, s, true).forms, NewId(now), true) == Step(forms, true)
  {
  }

  /**
   * A form just saved can be updated, and the update has the same effect
   * as having saved the new name and url in the first place.
   */
  lemma UpdateAfterSave(forms: Forms, name: string, url: string, now: nat, s: Sanitizers,
                        name2: string, url2: string)
    requires Save(forms, name, url, now, s, true).result.Some?
    ensures var saved := Save(forms, name, url, now, s, true).forms;
            var upd := Update(saved, NewId(now), name2, url2, s, true);
            && (upd.result <==> !Empty(name2) && !Empty(url2) && HasHttpsPrefix(url2))
            && (upd.result ==> upd.forms == Save(forms, name2, url2, now, s, true).forms)
  {
  }

  /**
   * Two saves in the same second share one id: the second overwrites the
   * first, and the map ends as if only the second had happened.
   */
  lemma SaveSameSecondOverwrites(forms: Forms, name1: string, url1: string, name2: string, url2: string,
                                 now: nat, s: Sanitizers)
    requires Save(forms, name1, url1, now, s, true).result.Some?
    requires Save(forms, name2, url2, now, s, true).result.Some?
    ensures var first := Save(forms, name1, url1, now, s, true);
            var second := Save(first.forms, name2, url2, now, s, true);
            && second.result == first.result
            && second.forms == Save(forms, name2, url2, now, s, true).forms
            && second.forms.Keys == first.forms.Keys
  {
  }

  /** Saves made in different seconds both stay in the map. */
  lemma SavesAtDistinctTimesKeepBoth(forms: Forms, name1: string, url1: string, t1: nat,
                                     name2: string, url2: string, t2: nat, s: Sanitizers)
    requires t1 != t2
    requires Save(forms, name1, url1, t1, s, true).result.Some?
    requires Save(forms, name2, url2, t2, s, true).result.Some?
    ensures var first := Save(forms, name1, url1, t1, s, true);
            var second := Save(first.forms, name2, url2, t2, s, true);
            && NewId(t1) in second.forms
            && second.forms[NewId(t1)] == FormRecord(NewId(t1), s.text(name1), s.url(url1))
            && NewId(t2) in second.forms
            && second.forms[NewId(t2)] == FormRecord(NewId(t2), s.text(name2), s.url(url2))
  {
    if NewId(t1) == NewId(t2) {
      NewIdInjective(t1, t2);
    }
  }

  /** Every form the registry creates can later be deleted. */
  lemma SavedFormIsDeletable(forms: Forms, name: string, url: string, now: nat, s: Sanitizers)
    requires Save(forms, name, url, now, s, true).result.Some?
    ensures var saved := Save(forms, name, url, now, s, true);
            Delete(saved.forms, saved.result.value, true).result
  {
  }

  /** A form created at time 1700000000 gets the id "form_1700000000". */
  lemma ScenarioId()
    ensures NewId(1700000000) == "form_1700000000"
  {
  }

  /** A form "Survey" created at time 1700000000, with sanitizers that keep these inputs, is the only record. */
  lemma SurveyCreated(s: Sanitizers)
    requires s.text("Survey") == "Survey"
    requires s.url("https://forms.example.com/s1") == "https://forms.example.com/s1"
    ensures var created := Save(map[], "Survey", "https://forms.example.com/s1", 1700000000, s, true);
            && created.result == Some("form_1700000000")
            && created.forms == map["form_1700000000" :=
                 FormRecord("form_1700000000", "Survey", "https://forms.example.com/s1")]
  {
    var url := "https://forms.example.com/s1";
    ScenarioId();
    assert HasHttpsPrefix(url) by {
      assert url[..|Https|] == Https;
    }
  }

  /** Deleting the only form empties the registry; deleting it again fails. */
  lemma SurveyDeleted()
    ensures var one := map["form_1700000000" :=
              FormRecord("form_1700000000", "Survey", "https://forms.example.com/s1")];
            && Delete(one, "form_1700000000", true) == Step(map[], true)
            && Delete(map[], "form_1700000000", true) == Step(map[], false)
  {
  }

  /** A form with an http url is refused and nothing is stored. */
  lemma InsecureRejected(s: Sanitizers, now: nat)
    ensures Save(map[], "Bad", "http://insecure.example.com", now, s, true) == Step(map[], None)
  {
    assert !HasHttpsPrefix("http://insecure.example.com") by {
      assert "http://insecure.example.com"[4] != Https[4];
    }
  }

  // ---------------------------------------------------------------------
  // The option store and the operations as the plugin runs them
  // ---------------------------------------------------------------------

  /**
   * The WordPress option `external_dashboard_forms`. A missing option reads
   * as the empty array, the default edf_get_forms passes to get_option.
   */
  class FormsOption {
    var forms: Forms

    constructor ()
      ensures forms == map[]
    {
      forms := map[];
    }

    /**
     * update_option: overwrites the whole value when the host reports
     * success (`writeOk`), otherwise the stored value stays as it was.
     */
    method UpdateOption(value: Forms, writeOk: bool) returns (ok: bool)
      modifies this
      ensures ok == writeOk
      ensures forms == if writeOk then value else old(forms)
    {
      if writeOk {
        forms := value;
      }
      ok := writeOk;
    }

    /** delete_option, as uninstall.php calls it: the option reads as empty afterwards. */
    method DeleteOption()
      modifies this
      ensures forms == map[]
    {
      forms := map[];
    }
  }

  /** edf_get_forms: the whole stored map, nothing changed. */
  method GetForms(option: FormsOption) returns (forms: Forms)
    ensures forms == option.forms
  {
    forms := option.forms;
  }

  /** edf_save_form. */
  method SaveForm(option: FormsOption, name: string, url: string, now: nat, s: Sanitizers, writeOk: bool)
    returns (r: Option<string>)
    modifies option
    ensures Step(option.forms, r) == Save(old(option.forms), name, url, now, s, writeOk)
  {
    if Empty(name) || Empty(url) {
      return None;
    }
    if StrPos(url, Https) != Some(0) {
      return None;
    }
    var forms := GetForms(option);
    var formId := NewId(now);
    forms := forms[formId := FormRecord(formId, s.text(name), s.url(url))];
    var ok := option.UpdateOption(forms, writeOk);
    if ok {
      return Some(formId);
    }
    return None;
  }

  /** edf_update_form. */
  method UpdateForm(option: FormsOption, formId: string, name: string, url: string, s: Sanitizers, writeOk: bool)
    returns (ok: bool)
    modifies option
    ensures Step(option.forms, ok) == Update(old(option.forms), formId, name, url, s, writeOk)
  {
    if Empty(formId) || Empty(name) || Empty(url) {
      return false;
    }
    if StrPos(url, Https) != Some(0) {
      return false;
    }
    var forms := GetForms(option);
    if formId !in forms {
      return false;
    }
    forms := forms[formId := FormRecord(formId, s.text(name), s.url(url))];
    ok := option.UpdateOption(forms, writeOk);
  }

  /** edf_delete_form. */
  method DeleteForm(option: FormsOption, formId: string, writeOk: bool) returns (ok: bool)
    modifies option
    ensures Step(option.forms, ok) == Delete(old(option.forms), formId, writeOk)
  {
    if Empty(formId) {
      return false;
    }
    var forms := GetForms(option);
    if formId !in forms {
      return false;
    }
    forms := forms - {formId};
    ok := option.UpdateOption(forms, writeOk);
  }

  /**
   * edf_ajax_remove_form without its nonce and capability checks: the posted
   * `form_id` (empty when missing) is sanitized and deleted; the reply is a
   * success exactly when the delete succeeds.
   */
  method AjaxRemoveForm(option: FormsOption, posted: Option<string>, s: Sanitizers, writeOk: bool)
    returns (success: bool)
    modifies option
    ensures var formId := if posted.Some? then s.text(posted.value) else "";
            Step(option.forms, success) == Delete(old(option.forms), formId, writeOk)
  {
    var formId := if posted.Some? then s.text(posted.value) else "";
    if Empty(formId) {
      return false;
    }
    success := DeleteForm(option, formId, writeOk);
  }
}
