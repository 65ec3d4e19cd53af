/**
 * The entity admin (admin/base.py).
 *
 * The framework validates an admin class's `readonly_fields` and
 * `raw_id_fields` against the model's concrete fields when the class is
 * defined, and proxy fields are not concrete fields. So, at class
 * definition, the proxy-field names are added to the class's
 * `readonly_fields` and taken out of its `raw_id_fields`, with the
 * original lists remembered; every admin instance then puts the original
 * lists back on itself.
 */
module EntityAdmins {
  import opened Wrappers
  import opened OrderedMaps
  import opened EntityForms

  const RawIdFieldsAttr := "raw_id_fields"

  /** `set(xs)`. */
  function SetOf(xs: seq<string>): set<string> {
    set x | x in xs
  }

  /**
   * `list(s)` for a set: each element once, in an order the language
   * leaves unspecified (here, whatever order the choices below make).
   */
  method ListOfSet(s: set<string>) returns (xs: seq<string>)
    ensures SetOf(xs) == s && Distinct(xs)
  {
    xs := [];
    var rest := s;
    while rest != {}
      invariant SetOf(xs) + rest == s && SetOf(xs) !! rest && Distinct(xs)
      decreases rest
    {
      var x :| x in rest;
      xs := xs + [x];
      rest := rest - {x};
    }
  }

  /**
   * The names the admin masks: the keys of
   * `proxy_fields_for_entity_model(model)`, which uses no filters and the
   * descriptor's own `formfield`.
   */
  function ProxyNames(model: EntityModel, fieldFormfield: FormfieldCallback): set<string> {
    SetOf(Keys(ProxyFormFields(model.proxyFields, [], [], map[], fieldFormfield)))
  }

  /** Every masked name is an editable proxy field of the model that has a form field. */
  lemma ProxyNamesAreEditableProxyFields(model: EntityModel, fieldFormfield: FormfieldCallback, k: string)
    requires k in ProxyNames(model, fieldFormfield)
    ensures exists i :: 0 <= i < |model.proxyFields| && model.proxyFields[i].name == k
                        && model.proxyFields[i].editable && fieldFormfield(model.proxyFields[i], None).Some?
  {
    var fs := model.proxyFields;
    ProxyFormFieldsSound(fs, [], [], map[], fieldFormfield, k);
    var i :| 0 <= i < |fs| && fs[i].name == k && fs[i].editable
             && Get(ProxyFormFields(fs, [], [], map[], fieldFormfield), k) == fieldFormfield(fs[i], WidgetFor(map[], k));
    assert WidgetFor(map[], k) == None;
  }

  /** An admin's `form`: whether it derives from EntityForm, and its `_meta.model`. */
  datatype AdminForm = AdminForm(isEntityForm: bool, model: Option<EntityModel>)

  /** `ModelAdmin.form`: the framework's plain model form. */
  const ModelAdminForm := AdminForm(false, None)

  /** What an admin class body declares itself; `None` where it inherits. */
  datatype AdminAttrs = AdminAttrs(
    form: Option<AdminForm>,
    readonlyFields: Option<seq<string>>,
    rawIdFields: Option<seq<string>>)

  /** Masking applies to admins whose form is an entity form with a model. */
  predicate MasksProxyFields(form: AdminForm) {
    form.isEntityForm && form.model.Some?
  }

  /** An admin class object, with the attributes the masking reads and writes (own or inherited). */
  class AdminClass {
    var form: AdminForm
    var readonlyFields: seq<string>
    var rawIdFields: seq<string>
    var realReadonlyFields: Option<seq<string>>            // `_real_readonly_fields`, when present
    var hiddenAttributes: Option<map<string, seq<string>>>  // `_hidden_attributes`, when present

    /** Only `raw_id_fields` is ever hidden. */
    ghost predicate Valid()
      reads this
    {
      hiddenAttributes.Some? ==> hiddenAttributes.value.Keys <= {RawIdFieldsAttr}
    }

    /** What masking leaves on a class whose form it applies to. */
    ghost predicate Masked(fieldFormfield: FormfieldCallback)
      reads this
    {
      MasksProxyFields(form) ==>
        && realReadonlyFields.Some?
        && hiddenAttributes.Some?
        && ProxyNames(form.model.value, fieldFormfield) <= SetOf(readonlyFields)
        && ProxyNames(form.model.value, fieldFormfield) !! SetOf(rawIdFields)
    }

    /**
     * `hide_proxy_fields(cls, 'raw_id_fields', proxy_field_set)`: when the
     * list shares a name with the proxy set, remember the list (as a
     * deduplicated list) under its name and strip the proxy names from it.
     */
    method HideProxyFields(proxyFieldSet: set<string>)
      requires hiddenAttributes.Some?
      modifies this`rawIdFields, this`hiddenAttributes
      ensures var valSet := SetOf(old(rawIdFields));
        if proxyFieldSet * valSet == {} then
          rawIdFields == old(rawIdFields) && hiddenAttributes == old(hiddenAttributes)
        else
          && Distinct(rawIdFields) && SetOf(rawIdFields) == valSet - proxyFieldSet
          && hiddenAttributes.Some?
          && hiddenAttributes.value.Keys == old(hiddenAttributes.value.Keys) + {RawIdFieldsAttr}
          && Distinct(hiddenAttributes.value[RawIdFieldsAttr])
          && SetOf(hiddenAttributes.value[RawIdFieldsAttr]) == valSet
          && forall name :: name in old(hiddenAttributes.value) && name != RawIdFieldsAttr ==>
               hiddenAttributes.value[name] == old(hiddenAttributes.value[name])
    {
      var valSet := SetOf(rawIdFields);
      if proxyFieldSet * valSet != {} {
        var hidden := ListOfSet(valSet);
        hiddenAttributes := Some(hiddenAttributes.value[RawIdFieldsAttr := hidden]);
        rawIdFields := ListOfSet(valSet - proxyFieldSet);
      }
    }

    /**
     * The masking step of `EntityAdminMetaclass.__new__`, given the proxy
     * names: remember the unmasked `readonly_fields` when the class declares
     * them or nothing is remembered yet, replace them by their union with the
     * proxy names, reset `_hidden_attributes` and hide the proxy names of
     * `raw_id_fields`.
     */
    method Mask(declaresReadonly: bool, proxy: set<string>)
      modifies this
      ensures form == old(form)
      ensures realReadonlyFields ==
        if declaresReadonly || old(realReadonlyFields).None? then Some(old(readonlyFields)) else old(realReadonlyFields)
      ensures Distinct(readonlyFields)
      ensures SetOf(readonlyFields) == SetOf(old(readonlyFields)) + proxy
      ensures proxy !! SetOf(rawIdFields)
      ensures var valSet := SetOf(old(rawIdFields));
        if proxy * valSet == {} then
          rawIdFields == old(rawIdFields) && hiddenAttributes == Some(map[])
        else
          && Distinct(rawIdFields) && SetOf(rawIdFields) == valSet - proxy
          && hiddenAttributes.Some? && hiddenAttributes.value.Keys == {RawIdFieldsAttr}
          && Distinct(hiddenAttributes.value[RawIdFieldsAttr])
          && SetOf(hiddenAttributes.value[RawIdFieldsAttr]) == valSet
    {
      if declaresReadonly || realReadonlyFields.None? {
        realReadonlyFields := Some(readonlyFields);
      }
      var readonly := readonlyFields;
      readonlyFields := ListOfSet(SetOf(readonly) + proxy);
      hiddenAttributes := Some(map[]);
      HideProxyFields(proxy);
      assert forall x :: x in proxy && x in SetOf(rawIdFields) ==> x in proxy * SetOf(rawIdFields);
    }

    /**
     * `EntityAdminMetaclass.__new__`: the class as the framework builds it
     * (each attribute declared in the body, else inherited from `parent`,
     * else the `ModelAdmin` default), then masked when its form is an
     * entity form with a model.
     */
    constructor (parent: AdminClass?, attrs: AdminAttrs, fieldFormfield: FormfieldCallback)
      requires parent != null ==> parent.Valid()
      ensures Valid() && Masked(fieldFormfield)
      ensures form == attrs.form.GetOr(if parent == null then ModelAdminForm else parent.form)
      ensures var readonly := attrs.readonlyFields.GetOr(if parent == null then [] else parent.readonlyFields);
              var rawId := attrs.rawIdFields.GetOr(if parent == null then [] else parent.rawIdFields);
              var unmasked := if parent == null then None else parent.realReadonlyFields;
              var hidden := if parent == null then None else parent.hiddenAttributes;
        if MasksProxyFields(form) then
          var proxy := ProxyNames(form.model.value, fieldFormfield);
          && realReadonlyFields == (if attrs.readonlyFields.Some? || unmasked.None? then Some(readonly) else unmasked)
          && Distinct(readonlyFields) && SetOf(readonlyFields) == SetOf(readonly) + proxy
          && if proxy * SetOf(rawId) == {} then
               rawIdFields == rawId && hiddenAttributes == Some(map[])
             else
               && Distinct(rawIdFields) && SetOf(rawIdFields) == SetOf(rawId) - proxy
               && hiddenAttributes.Some? && hiddenAttributes.value.Keys == {RawIdFieldsAttr}
               && Distinct(hiddenAttributes.value[RawIdFieldsAttr])
               && SetOf(hiddenAttributes.value[RawIdFieldsAttr]) == SetOf(rawId)
        else
          readonlyFields == readonly && rawIdFields == rawId
          && realReadonlyFields == unmasked && hiddenAttributes == hidden
      // Subclassing a masked class without redeclaring the form or the readonly fields adds no new
      // readonly names and keeps the parent's unmasked list.
      ensures parent != null && parent.Masked(fieldFormfield) && attrs.form.None? && attrs.readonlyFields.None? ==>
                SetOf(readonlyFields) == SetOf(parent.readonlyFields) && realReadonlyFields == parent.realReadonlyFields
      // Such a subclass that does not redeclare raw_id_fields either inherits the stripped list and
      // remembers nothing to restore.
      ensures parent != null && parent.Masked(fieldFormfield) && MasksProxyFields(parent.form)
              && attrs.form.None? && attrs.rawIdFields.None? ==>
                rawIdFields == parent.rawIdFields && hiddenAttributes == Some(map[])
    {
      form := if attrs.form.Some? then attrs.form.value
              else if parent != null then parent.form else ModelAdminForm;
      readonlyFields := if attrs.readonlyFields.Some? then attrs.readonlyFields.value
                        else if parent != null then parent.readonlyFields else [];
      rawIdFields := if attrs.rawIdFields.Some? then attrs.rawIdFields.value
                     else if parent != null then parent.rawIdFields else [];
      realReadonlyFields := if parent != null then parent.realReadonlyFields else None;
      hiddenAttributes := if parent != null then parent.hiddenAttributes else None;
      new;
      if form.isEntityForm && form.model.Some? {
        var proxyFields := ProxyFieldsForEntityModel(form.model.value, [], [], map[], fieldFormfield);
        Mask(attrs.readonlyFields.Some?, SetOf(Keys(proxyFields)));
      }
    }
  }

  /** An admin instance: its own `readonly_fields` and `raw_id_fields`, and its class. */
  class EntityAdmin {
    const adminClass: AdminClass
    var readonlyFields: seq<string>
    var rawIdFields: seq<string>

    /**
     * `EntityAdmin.__init__`: the instance sees its class's attributes, then
     * takes the remembered `readonly_fields` and every hidden attribute back.
     */
    constructor (adminClass: AdminClass)
      requires adminClass.Valid()
      ensures this.adminClass == adminClass
      ensures readonlyFields == adminClass.realReadonlyFields.GetOr(adminClass.readonlyFields)
      ensures rawIdFields ==
        if adminClass.hiddenAttributes.Some? && RawIdFieldsAttr in adminClass.hiddenAttributes.value
        then adminClass.hiddenAttributes.value[RawIdFieldsAttr] else adminClass.rawIdFields
    {
      this.adminClass := adminClass;
      readonlyFields := adminClass.readonlyFields;
      rawIdFields := adminClass.rawIdFields;
      new;
      if adminClass.realReadonlyFields.Some? {
        readonlyFields := adminClass.realReadonlyFields.value;
      }
      if adminClass.hiddenAttributes.Some? {
        var hidden := adminClass.hiddenAttributes.value;
        var names := hidden.Keys;
        while names != {}
          invariant names <= hidden.Keys
          invariant readonlyFields == adminClass.realReadonlyFields.GetOr(adminClass.readonlyFields)
          invariant rawIdFields ==
            if RawIdFieldsAttr in hidden.Keys - names then hidden[RawIdFieldsAttr] else adminClass.rawIdFields
          decreases names
        {
          var name :| name in names;
          // the class hides nothing but raw_id_fields (Valid)
          if name == RawIdFieldsAttr {
            rawIdFields := hidden[name];
          }
          names := names - {name};
        }
      }
    }
  }

  /**
   * An admin that subclasses `EntityAdmin` (whose form is `EntityForm`,
   * which has no model) with an entity form that has one: the class masks
   * the proxy names, and an instance of it gets the declared lists back,
   * `raw_id_fields` with the same elements.
   */
  method DefineAndInstantiate(form: AdminForm, readonly: seq<string>, rawId: seq<string>, fieldFormfield: FormfieldCallback)
    returns (cls: AdminClass, admin: EntityAdmin)
    requires MasksProxyFields(form)
    ensures SetOf(cls.readonlyFields) == SetOf(readonly) + ProxyNames(form.model.value, fieldFormfield)
    ensures SetOf(cls.rawIdFields) == SetOf(rawId) - ProxyNames(form.model.value, fieldFormfield)
    ensures admin.adminClass == cls
    ensures admin.readonlyFields == readonly
    ensures SetOf(admin.rawIdFields) == SetOf(rawId)
  {
    var entityAdmin := new AdminClass(null, AdminAttrs(Some(AdminForm(true, None)), None, None), fieldFormfield);
    cls := new AdminClass(entityAdmin, AdminAttrs(Some(form), Some(readonly), Some(rawId)), fieldFormfield);
    admin := new EntityAdmin(cls);
  }

  // -----------------------------------------------------------------------
  // formfield_for_dbfield and the attribute-field variants
  // -----------------------------------------------------------------------

  /** The field classes `formfield_for_dbfield` tells apart; `formfield_overrides` is keyed by class. */
  datatype FieldClass = ForeignKeyAttributeClass | ManyToManyAttributeClass | OtherFieldClass(handle: nat)

  /** A model field as `formfield_for_dbfield` sees it. */
  datatype DbField = DbField(name: string, fieldClass: FieldClass, hasChoices: bool)

  /**
   * Keyword-argument values: the raw-id widgets built here (with the field
   * and the `kwargs.get('using')` value they are given), text, and any other
   * object.
   */
  datatype KwArg =
    | ForeignKeyRawIdWidget(field: DbField, db: Option<KwArg>)
    | ManyToManyRawIdWidget(field: DbField, db: Option<KwArg>)
    | Text(text: string)
    | Opaque(handle: nat)

  type Kwargs = map<string, KwArg>

  /** What `formfield_for_dbfield` does with a field. */
  datatype FormfieldCall =
    | AttributeFormfield(field: DbField, kwargs: Kwargs)   // `db_field.formfield(**kwargs)`
    | InheritedFormfield(field: DbField, kwargs: Kwargs)   // `ModelAdmin.formfield_for_dbfield`
    | ArgumentBoundTwice(field: DbField, names: set<string>) // the `TypeError` of binding a parameter twice

  /** `kwargs.get(key)`. */
  function Lookup(kwargs: Kwargs, key: string): Option<KwArg> {
    if key in kwargs then Some(kwargs[key]) else None
  }

  /**
   * The parameters the attribute-field variants bind by position or by
   * name besides `**kwargs`: a keyword argument with one of these names
   * binds it twice.
   */
  const BoundParameters: set<string> := {"self", "db_field", "request"}

  /** `dict(formfield_overrides[cls], **kwargs)` when the class has overrides. */
  function MergeOverrides(overrides: map<FieldClass, Kwargs>, fieldClass: FieldClass, kwargs: Kwargs): (r: Kwargs)
    ensures fieldClass !in overrides ==> r == kwargs
    ensures r.Keys == kwargs.Keys + (if fieldClass in overrides then overrides[fieldClass].Keys else {})
    ensures forall k :: k in kwargs ==> r[k] == kwargs[k]
    ensures forall k :: k in r && k !in kwargs ==> r[k] == overrides[fieldClass][k]
  {
    if fieldClass in overrides then overrides[fieldClass] + kwargs else kwargs
  }

  /**
   * `formfield_for_foreignkeyattribute`: the arguments it passes to
   * `db_field.formfield`. A name in `raw_id_fields` gets a raw-id widget
   * built with the `using` argument; nothing else changes.
   */
  function ForeignKeyAttributeKwargs(rawIdFields: seq<string>, field: DbField, kwargs: Kwargs): (r: Kwargs)
    ensures r.Keys == kwargs.Keys + (if field.name in rawIdFields then {"widget"} else {})
    ensures field.name in rawIdFields ==> r["widget"] == ForeignKeyRawIdWidget(field, Lookup(kwargs, "using"))
    ensures forall k :: k in kwargs && (k != "widget" || field.name !in rawIdFields) ==> r[k] == kwargs[k]
  {
    if field.name in rawIdFields then kwargs["widget" := ForeignKeyRawIdWidget(field, Lookup(kwargs, "using"))]
    else kwargs
  }

  /**
   * `formfield_for_manytomanyattribute`: the arguments it passes to
   * `db_field.formfield`. A name in `raw_id_fields` gets a raw-id widget
   * built with the `using` argument and an empty help text; nothing else
   * changes.
   */
  function ManyToManyAttributeKwargs(rawIdFields: seq<string>, field: DbField, kwargs: Kwargs): (r: Kwargs)
    ensures r.Keys == kwargs.Keys + (if field.name in rawIdFields then {"widget", "help_text"} else {})
    ensures field.name in rawIdFields ==>
      r["widget"] == ManyToManyRawIdWidget(field, Lookup(kwargs, "using")) && r["help_text"] == Text("")
    ensures forall k :: k in kwargs && (k !in {"widget", "help_text"} || field.name !in rawIdFields) ==> r[k] == kwargs[k]
  {
    if field.name in rawIdFields then
      kwargs["widget" := ManyToManyRawIdWidget(field, Lookup(kwargs, "using"))]["help_text" := Text("")]
    else kwargs
  }

  /** The arguments a raw-id field of this class has replaced. */
  function RawIdKeys(field: DbField): set<string> {
    if field.fieldClass == ManyToManyAttributeClass then {"widget", "help_text"} else {"widget"}
  }

  /** Attribute fields without choices are handled by the entity admin itself. */
  predicate HandledHere(field: DbField) {
    !field.hasChoices && !field.fieldClass.OtherFieldClass?
  }

  /**
   * `EntityAdmin.formfield_for_dbfield`, with `raw_id_fields` and
   * `formfield_overrides` of the admin passed in.
   */
  function FormfieldForDbfield(rawIdFields: seq<string>, overrides: map<FieldClass, Kwargs>,
                               field: DbField, kwargs: Kwargs): (r: FormfieldCall)
    ensures r.field == field
    // other fields go to the framework as they came, `request` included
    ensures r.InheritedFormfield? <==> !HandledHere(field)
    ensures r.InheritedFormfield? ==> r.kwargs == kwargs
    // `request` is popped, but an override (or argument) naming a bound parameter makes the call raise
    ensures var merged := MergeOverrides(overrides, field.fieldClass, kwargs - {"request"});
      r.ArgumentBoundTwice? <==> HandledHere(field) && BoundParameters * merged.Keys != {}
    ensures r.ArgumentBoundTwice? ==>
      r.names == BoundParameters * MergeOverrides(overrides, field.fieldClass, kwargs - {"request"}).Keys
    // explicit arguments win over the overrides, unless the raw-id choice replaces them
    ensures r.AttributeFormfield? ==>
      "request" !in r.kwargs &&
      forall k :: k in kwargs && k != "request" && !(field.name in rawIdFields && k in RawIdKeys(field)) ==>
        k in r.kwargs && r.kwargs[k] == kwargs[k]
    // overrides fill in what the caller did not pass
    ensures r.AttributeFormfield? && field.fieldClass in overrides ==>
      forall k :: k in overrides[field.fieldClass] && k !in kwargs
                  && !(field.name in rawIdFields && k in RawIdKeys(field)) ==>
        k in r.kwargs && r.kwargs[k] == overrides[field.fieldClass][k]
    // a raw-id widget exactly for the names in raw_id_fields; a many-to-many one also loses its help text
    ensures r.AttributeFormfield? && field.name in rawIdFields ==>
      var merged := MergeOverrides(overrides, field.fieldClass, kwargs - {"request"});
      && r.kwargs.Keys == merged.Keys + RawIdKeys(field)
      && r.kwargs["widget"] == (if field.fieldClass == ManyToManyAttributeClass
                                then ManyToManyRawIdWidget(field, Lookup(merged, "using"))
                                else ForeignKeyRawIdWidget(field, Lookup(merged, "using")))
      && (field.fieldClass == ManyToManyAttributeClass ==> r.kwargs["help_text"] == Text(""))
    ensures r.AttributeFormfield? && field.name !in rawIdFields ==>
      r.kwargs == MergeOverrides(overrides, field.fieldClass, kwargs - {"request"})
  {
    if HandledHere(field) then
      var explicit := kwargs - {"request"};
      var merged := MergeOverrides(overrides, field.fieldClass, explicit);
      if BoundParameters * merged.Keys != {} then
        ArgumentBoundTwice(field, BoundParameters * merged.Keys)
      else
        assert "request" !in BoundParameters * merged.Keys;
        if field.fieldClass == ManyToManyAttributeClass then
        AttributeFormfield(field, ManyToManyAttributeKwargs(rawIdFields, field, merged))
      else
        AttributeFormfield(field, ForeignKeyAttributeKwargs(rawIdFields, field, merged))
    else
      InheritedFormfield(field, kwargs)
  }

  /** An override for `request` makes the attribute-field call raise instead of reaching `db_field.formfield`. */
  lemma OverrideRequestRaises(rawIdFields: seq<string>, overrides: map<FieldClass, Kwargs>, field: DbField, kwargs: Kwargs)
    requires HandledHere(field) && field.fieldClass in overrides && "request" in overrides[field.fieldClass]
    ensures FormfieldForDbfield(rawIdFields, overrides, field, kwargs).ArgumentBoundTwice?
    ensures "request" in FormfieldForDbfield(rawIdFields, overrides, field, kwargs).names
  {
    var merged := MergeOverrides(overrides, field.fieldClass, kwargs - {"request"});
    assert "request" in merged.Keys;
  }
}
