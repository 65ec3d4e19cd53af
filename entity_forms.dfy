/**
 * Proxy fields of entity forms (forms/entities.py).
 *
 * An entity declares proxy fields: virtual fields kept in attribute storage
 * instead of table columns. This module composes them into a model form,
 * seeds a form's initial values from an instance, and writes submitted
 * values back onto the instance.
 */
module EntityForms {
  import opened Wrappers
  import opened OrderedMaps

  /** A proxy-field descriptor of an entity, as listed in `_entity_meta.proxy_fields`. */
  datatype ProxyField = ProxyField(name: string, attname: string, editable: bool)

  /** An entity model, reduced to its proxy-field descriptors in declaration order. */
  datatype EntityModel = EntityModel(proxyFields: seq<ProxyField>)

  /** Widgets, form fields and field values are foreign objects; the model only tells them apart. */
  datatype Widget = Widget(handle: nat)
  datatype FormField = FormField(handle: nat)
  datatype Value = Value(handle: nat)

  /**
   * `formfield_callback(f, **kwargs)`: the keyword arguments are either
   * `{'widget': w}` or empty, and a falsy result is `None`.
   */
  type FormfieldCallback = (ProxyField, Option<Widget>) -> Option<FormField>

  /**
   * A model form's `_meta`. A `fields` or `exclude` of `None` and an empty
   * list are both falsy in the source, so both are the empty sequence here.
   */
  datatype FormOptions = FormOptions(
    model: Option<EntityModel>,
    fields: seq<string>,
    exclude: seq<string>,
    widgets: map<string, Widget>)

  function Names(fs: seq<ProxyField>): (ns: seq<string>)
    ensures |ns| == |fs|
    ensures forall i :: 0 <= i < |fs| ==> ns[i] == fs[i].name
    decreases |fs|
  {
    if fs == [] then []
    else
      var n := |fs| - 1;
      assert forall i :: 0 <= i < n ==> fs[..n][i] == fs[i];
      Names(fs[..n]) + [fs[n].name]
  }

  predicate UniqueNames(fs: seq<ProxyField>) {
    Distinct(Names(fs))
  }

  /** Without its last descriptor, a name-unique list stays name-unique and does not hold the last name. */
  lemma UniqueNamesInit(fs: seq<ProxyField>)
    requires UniqueNames(fs) && fs != []
    ensures UniqueNames(fs[..|fs| - 1]) && fs[|fs| - 1].name !in Names(fs[..|fs| - 1])
  {
    var n := |fs| - 1;
    var ns := Names(fs);
    assert ns == Names(fs[..n]) + [fs[n].name];
    assert Names(fs[..n]) == ns[..n];
    assert fs[n].name == ns[n];
  }

  predicate UniqueAttnames(fs: seq<ProxyField>) {
    forall i, j :: 0 <= i < j < |fs| ==> fs[i].attname != fs[j].attname
  }

  /** The `fields`/`exclude` filter: an empty `fields` admits every name. */
  predicate Visible(fields: seq<string>, exclude: seq<string>, name: string) {
    (|fields| == 0 || name in fields) && name !in exclude
  }

  /** A descriptor that survives the filters of the composition loop. */
  predicate Accepted(f: ProxyField, fields: seq<string>, exclude: seq<string>) {
    f.editable && Visible(fields, exclude, f.name)
  }

  /** The widget override handed to the callback for a field of this name, if any. */
  function WidgetFor(widgets: map<string, Widget>, name: string): Option<Widget> {
    if name in widgets then Some(widgets[name]) else None
  }

  /** What the callback makes of `f` when called as the composition loop calls it. */
  function FieldFor(f: ProxyField, widgets: map<string, Widget>, cb: FormfieldCallback): Option<FormField> {
    cb(f, WidgetFor(widgets, f.name))
  }

  // ---------------------------------------------------------------------
  // proxy_fields_for_entity_model
  // ---------------------------------------------------------------------

  /** `field_list` after the loop: the accepted fields the callback made a form field for, in declaration order. */
  function FieldList(fs: seq<ProxyField>, fields: seq<string>, exclude: seq<string>,
                     widgets: map<string, Widget>, cb: FormfieldCallback): seq<(string, FormField)>
    decreases |fs|
  {
    if fs == [] then []
    else
      var n := |fs| - 1;
      var prev := FieldList(fs[..n], fields, exclude, widgets, cb);
      var f := fs[n];
      if Accepted(f, fields, exclude) && FieldFor(f, widgets, cb).Some? then
        prev + [(f.name, FieldFor(f, widgets, cb).value)]
      else prev
  }

  /** Every pair of `field_list` is an accepted descriptor's name with the form field the callback made of it. */
  lemma {:induction false} FieldListSound(fs: seq<ProxyField>, fields: seq<string>, exclude: seq<string>,
                                          widgets: map<string, Widget>, cb: FormfieldCallback, p: (string, FormField))
    requires p in FieldList(fs, fields, exclude, widgets, cb)
    ensures exists i :: 0 <= i < |fs| && fs[i].name == p.0 && Accepted(fs[i], fields, exclude)
                        && FieldFor(fs[i], widgets, cb) == Some(p.1)
    decreases |fs|
  {
    if fs != [] {
      var n := |fs| - 1;
      var prev := FieldList(fs[..n], fields, exclude, widgets, cb);
      if p in prev {
        FieldListSound(fs[..n], fields, exclude, widgets, cb, p);
        var i :| 0 <= i < n && fs[..n][i].name == p.0 && Accepted(fs[..n][i], fields, exclude)
                 && FieldFor(fs[..n][i], widgets, cb) == Some(p.1);
        assert fs[..n][i] == fs[i];
      } else {
        assert fs[n].name == p.0 && Accepted(fs[n], fields, exclude) && FieldFor(fs[n], widgets, cb) == Some(p.1);
      }
    }
  }

  /** Every accepted descriptor the callback makes a form field for has its name in `field_list`. */
  lemma {:induction false} FieldListComplete(fs: seq<ProxyField>, fields: seq<string>, exclude: seq<string>,
                                             widgets: map<string, Widget>, cb: FormfieldCallback, i: nat)
    requires i < |fs| && Accepted(fs[i], fields, exclude) && FieldFor(fs[i], widgets, cb).Some?
    ensures fs[i].name in Keys(FieldList(fs, fields, exclude, widgets, cb))
    decreases |fs|
  {
    var n := |fs| - 1;
    var prev := FieldList(fs[..n], fields, exclude, widgets, cb);
    var f := fs[n];
    if Accepted(f, fields, exclude) && FieldFor(f, widgets, cb).Some? {
      KeysSnoc(prev, (f.name, FieldFor(f, widgets, cb).value));
    }
    if i < n {
      assert fs[..n][i] == fs[i];
      FieldListComplete(fs[..n], fields, exclude, widgets, cb, i);
    }
  }

  /** `ignored` after the loop: the accepted fields the callback made nothing of. */
  function Ignored(fs: seq<ProxyField>, fields: seq<string>, exclude: seq<string>,
                   widgets: map<string, Widget>, cb: FormfieldCallback): seq<string>
    decreases |fs|
  {
    if fs == [] then []
    else
      var n := |fs| - 1;
      var prev := Ignored(fs[..n], fields, exclude, widgets, cb);
      var f := fs[n];
      if Accepted(f, fields, exclude) && FieldFor(f, widgets, cb).None? then prev + [f.name] else prev
  }

  /** Every ignored name is that of an accepted descriptor the callback made nothing of. */
  lemma {:induction false} IgnoredSound(fs: seq<ProxyField>, fields: seq<string>, exclude: seq<string>,
                                        widgets: map<string, Widget>, cb: FormfieldCallback, x: string)
    requires x in Ignored(fs, fields, exclude, widgets, cb)
    ensures exists i :: 0 <= i < |fs| && fs[i].name == x && Accepted(fs[i], fields, exclude)
                        && FieldFor(fs[i], widgets, cb).None?
    decreases |fs|
  {
    if fs != [] {
      var n := |fs| - 1;
      var prev := Ignored(fs[..n], fields, exclude, widgets, cb);
      if x in prev {
        IgnoredSound(fs[..n], fields, exclude, widgets, cb, x);
        var i :| 0 <= i < n && fs[..n][i].name == x && Accepted(fs[..n][i], fields, exclude)
                 && FieldFor(fs[..n][i], widgets, cb).None?;
        assert fs[..n][i] == fs[i];
      } else {
        assert fs[n].name == x && Accepted(fs[n], fields, exclude) && FieldFor(fs[n], widgets, cb).None?;
      }
    }
  }

  /** The names in `field_list` and in `ignored` are all descriptor names. */
  lemma {:induction false} ComposedNamesDeclared(fs: seq<ProxyField>, fields: seq<string>, exclude: seq<string>,
                                                 widgets: map<string, Widget>, cb: FormfieldCallback)
    ensures forall x :: x in Keys(FieldList(fs, fields, exclude, widgets, cb)) ==> x in Names(fs)
    ensures forall x :: x in Ignored(fs, fields, exclude, widgets, cb) ==> x in Names(fs)
    decreases |fs|
  {
    if fs != [] {
      var n := |fs| - 1;
      assert Names(fs) == Names(fs[..n]) + [fs[n].name];
      ComposedNamesDeclared(fs[..n], fields, exclude, widgets, cb);
      var prev := FieldList(fs[..n], fields, exclude, widgets, cb);
      var f := fs[n];
      if Accepted(f, fields, exclude) && FieldFor(f, widgets, cb).Some? {
        KeysSnoc(prev, (f.name, FieldFor(f, widgets, cb).value));
      }
    }
  }

  /**
   * With name-unique descriptors, a descriptor's name is in `field_list`
   * exactly when it is accepted and the callback makes a form field of it.
   */
  lemma {:induction false} FieldListNamesExactly(fs: seq<ProxyField>, fields: seq<string>, exclude: seq<string>,
                                                 widgets: map<string, Widget>, cb: FormfieldCallback, i: nat)
    requires UniqueNames(fs) && i < |fs|
    ensures fs[i].name in Keys(FieldList(fs, fields, exclude, widgets, cb))
            <==> Accepted(fs[i], fields, exclude) && FieldFor(fs[i], widgets, cb).Some?
    decreases |fs|
  {
    var n := |fs| - 1;
    var pre := fs[..n];
    var f := fs[n];
    var prev := FieldList(pre, fields, exclude, widgets, cb);
    var keep := Accepted(f, fields, exclude) && FieldFor(f, widgets, cb).Some?;
    assert Keys(FieldList(fs, fields, exclude, widgets, cb)) == if keep then Keys(prev) + [f.name] else Keys(prev) by {
      if keep {
        KeysSnoc(prev, (f.name, FieldFor(f, widgets, cb).value));
      }
    }
    UniqueNamesInit(fs);
    if i < n {
      assert pre[i] == fs[i];
      FieldListNamesExactly(pre, fields, exclude, widgets, cb, i);
      assert Names(pre)[i] == fs[i].name;
    } else {
      ComposedNamesDeclared(pre, fields, exclude, widgets, cb);
    }
  }

  /**
   * With name-unique descriptors, a descriptor's name is in `ignored`
   * exactly when it is accepted and the callback makes nothing of it.
   */
  lemma {:induction false} IgnoredNamesExactly(fs: seq<ProxyField>, fields: seq<string>, exclude: seq<string>,
                                               widgets: map<string, Widget>, cb: FormfieldCallback, i: nat)
    requires UniqueNames(fs) && i < |fs|
    ensures fs[i].name in Ignored(fs, fields, exclude, widgets, cb)
            <==> Accepted(fs[i], fields, exclude) && FieldFor(fs[i], widgets, cb).None?
    decreases |fs|
  {
    var n := |fs| - 1;
    var pre := fs[..n];
    var f := fs[n];
    var prev := Ignored(pre, fields, exclude, widgets, cb);
    var keep := Accepted(f, fields, exclude) && FieldFor(f, widgets, cb).None?;
    assert Ignored(fs, fields, exclude, widgets, cb) == if keep then prev + [f.name] else prev;
    UniqueNamesInit(fs);
    if i < n {
      assert pre[i] == fs[i];
      IgnoredNamesExactly(pre, fields, exclude, widgets, cb, i);
      assert Names(pre)[i] == fs[i].name;
    } else {
      ComposedNamesDeclared(pre, fields, exclude, widgets, cb);
    }
  }

  /** The condition of the re-ordering comprehension over `fields`. */
  function KeepInOrder(exclude: seq<string>, ignored: seq<string>, fieldDict: OrderedMap<FormField>): string -> bool {
    f => f !in exclude && f !in ignored && Get(fieldDict, f).Some?
  }

  /** The pairs of the re-ordering comprehension: each kept name of `fields` with its form field. */
  function Reordered(fields: seq<string>, exclude: seq<string>, ignored: seq<string>,
                     fieldDict: OrderedMap<FormField>): (ps: seq<(string, FormField)>)
    ensures Keys(ps) == Filter(fields, KeepInOrder(exclude, ignored, fieldDict))
    ensures forall p :: p in ps ==> Get(fieldDict, p.0) == Some(p.1)
  {
    var kept := Filter(fields, KeepInOrder(exclude, ignored, fieldDict));
    assert forall i :: 0 <= i < |kept| ==> Get(fieldDict, kept[i]).Some? by {
      forall i | 0 <= i < |kept| ensures Get(fieldDict, kept[i]).Some? {
        assert kept[i] in kept;
      }
    }
    seq(|kept|, i requires 0 <= i < |kept| => (kept[i], Get(fieldDict, kept[i]).value))
  }

  /**
   * The ordered name-to-form-field map `proxy_fields_for_entity_model`
   * returns for the descriptors `fs`.
   */
  function ProxyFormFields(fs: seq<ProxyField>, fields: seq<string>, exclude: seq<string>,
                           widgets: map<string, Widget>, cb: FormfieldCallback): OrderedMap<FormField>
  {
    var fieldDict := FromPairs(FieldList(fs, fields, exclude, widgets, cb));
    if |fields| == 0 then fieldDict
    else FromPairs(Reordered(fields, exclude, Ignored(fs, fields, exclude, widgets, cb), fieldDict))
  }

  /** `proxy_fields_for_entity_model`: the filtering loop, then the re-ordering by `fields`. */
  method ProxyFieldsForEntityModel(model: EntityModel, fields: seq<string>, exclude: seq<string>,
                                   widgets: map<string, Widget>, cb: FormfieldCallback)
    returns (fieldDict: OrderedMap<FormField>)
    ensures fieldDict == ProxyFormFields(model.proxyFields, fields, exclude, widgets, cb)
  {
    var fs := model.proxyFields;
    var fieldList: seq<(string, FormField)> := [];
    var ignored: seq<string> := [];
    for i := 0 to |fs|
      invariant fieldList == FieldList(fs[..i], fields, exclude, widgets, cb)
      invariant ignored == Ignored(fs[..i], fields, exclude, widgets, cb)
    {
      assert fs[..i + 1][..i] == fs[..i];
      assert FieldList(fs[..i + 1], fields, exclude, widgets, cb)
             == if Accepted(fs[i], fields, exclude) && FieldFor(fs[i], widgets, cb).Some?
                then fieldList + [(fs[i].name, FieldFor(fs[i], widgets, cb).value)] else fieldList;
      assert Ignored(fs[..i + 1], fields, exclude, widgets, cb)
             == if Accepted(fs[i], fields, exclude) && FieldFor(fs[i], widgets, cb).None?
                then ignored + [fs[i].name] else ignored;
      var f := fs[i];
      if !f.editable {
        continue;
      }
      if |fields| > 0 && f.name !in fields {
        continue;
      }
      if |exclude| > 0 && f.name in exclude {
        continue;
      }
      var widget := if |widgets| > 0 && f.name in widgets then Some(widgets[f.name]) else None;
      var formfield := cb(f, widget);
      if formfield.Some? {
        fieldList := fieldList + [(f.name, formfield.value)];
      } else {
        ignored := ignored + [f.name];
      }
    }
    assert fs[..|fs|] == fs;
    fieldDict := FromPairs(fieldList);
    if |fields| > 0 {
      fieldDict := FromPairs(Reordered(fields, exclude, ignored, fieldDict));
    }
  }

  /** The composed map never lists a name twice. */
  lemma ProxyFormFieldsKeysUnique(fs: seq<ProxyField>, fields: seq<string>, exclude: seq<string>,
                                  widgets: map<string, Widget>, cb: FormfieldCallback)
    ensures KeysUnique(ProxyFormFields(fs, fields, exclude, widgets, cb))
  {
    var fieldList := FieldList(fs, fields, exclude, widgets, cb);
    PutAllKeys([], fieldList);
    if |fields| > 0 {
      var fieldDict := FromPairs(fieldList);
      PutAllKeys([], Reordered(fields, exclude, Ignored(fs, fields, exclude, widgets, cb), fieldDict));
    }
  }

  /**
   * Every name in the composed map belongs to an editable proxy field that
   * is admitted by `fields` (when given), not excluded, and made into the
   * form field the map holds by the callback, called with the widget
   * override for its name (if any).
   */
  lemma ProxyFormFieldsSound(fs: seq<ProxyField>, fields: seq<string>, exclude: seq<string>,
                             widgets: map<string, Widget>, cb: FormfieldCallback, k: string)
    requires k in Keys(ProxyFormFields(fs, fields, exclude, widgets, cb))
    ensures exists i :: 0 <= i < |fs| && fs[i].name == k && fs[i].editable
                        && (|fields| == 0 || k in fields) && k !in exclude
                        && Get(ProxyFormFields(fs, fields, exclude, widgets, cb), k) == cb(fs[i], WidgetFor(widgets, k))
  {
    var fieldList := FieldList(fs, fields, exclude, widgets, cb);
    var fieldDict := FromPairs(fieldList);
    PutAllKeys([], fieldList);
    PutAllGet([], fieldList, k);
    if |fields| > 0 {
      var reordered := Reordered(fields, exclude, Ignored(fs, fields, exclude, widgets, cb), fieldDict);
      PutAllKeys([], reordered);
      PutAllGet([], reordered, k);
      assert (k, LastValue(reordered, k)) in reordered;
      assert Get(fieldDict, k) == Some(LastValue(reordered, k));
    }
    FieldListSound(fs, fields, exclude, widgets, cb, (k, LastValue(fieldList, k)));
  }

  /** Name-unique descriptors: two descriptors with the same name are the same one. */
  lemma SameNameSameIndex(fs: seq<ProxyField>, i: nat, j: nat)
    requires UniqueNames(fs) && i < |fs| && j < |fs| && fs[i].name == fs[j].name
    ensures i == j
  {
    assert Names(fs)[i] == Names(fs)[j];
  }

  /**
   * With name-unique descriptors, every editable, admitted, non-excluded
   * proxy field the callback makes a form field for is in the composed map,
   * with that form field.
   */
  lemma ProxyFormFieldsComplete(fs: seq<ProxyField>, fields: seq<string>, exclude: seq<string>,
                                widgets: map<string, Widget>, cb: FormfieldCallback, i: nat)
    requires UniqueNames(fs) && i < |fs|
    requires Accepted(fs[i], fields, exclude) && cb(fs[i], WidgetFor(widgets, fs[i].name)).Some?
    ensures Get(ProxyFormFields(fs, fields, exclude, widgets, cb), fs[i].name) == cb(fs[i], WidgetFor(widgets, fs[i].name))
  {
    var k := fs[i].name;
    var fieldList := FieldList(fs, fields, exclude, widgets, cb);
    var fieldDict := FromPairs(fieldList);
    FieldListComplete(fs, fields, exclude, widgets, cb, i);
    PutAllGet([], fieldList, k);
    var v := LastValue(fieldList, k);
    FieldListSound(fs, fields, exclude, widgets, cb, (k, v));
    var j :| 0 <= j < |fs| && fs[j].name == k && FieldFor(fs[j], widgets, cb) == Some(v);
    SameNameSameIndex(fs, i, j);
    assert Get(fieldDict, k) == FieldFor(fs[i], widgets, cb);
    if |fields| == 0 {
      assert ProxyFormFields(fs, fields, exclude, widgets, cb) == fieldDict;
    } else {
      var ignored := Ignored(fs, fields, exclude, widgets, cb);
      IgnoredNamesExactly(fs, fields, exclude, widgets, cb, i);
      var reordered := Reordered(fields, exclude, ignored, fieldDict);
      assert ProxyFormFields(fs, fields, exclude, widgets, cb) == FromPairs(reordered);
      assert KeepInOrder(exclude, ignored, fieldDict)(k);
      assert k in Keys(reordered);
      PutAllGet([], reordered, k);
      assert (k, LastValue(reordered, k)) in reordered;
    }
  }

  /** With name-unique descriptors, a field the callback makes nothing of is absent. */
  lemma CallbackNoneIsAbsent(fs: seq<ProxyField>, fields: seq<string>, exclude: seq<string>,
                             widgets: map<string, Widget>, cb: FormfieldCallback, i: nat)
    requires UniqueNames(fs) && i < |fs|
    requires cb(fs[i], WidgetFor(widgets, fs[i].name)).None?
    ensures fs[i].name !in Keys(ProxyFormFields(fs, fields, exclude, widgets, cb))
  {
    var k := fs[i].name;
    var fieldList := FieldList(fs, fields, exclude, widgets, cb);
    var fieldDict := FromPairs(fieldList);
    FieldListNamesExactly(fs, fields, exclude, widgets, cb, i);
    PutAllKeys([], fieldList);
    assert k !in Keys(fieldDict);
    if |fields| > 0 {
      var reordered := Reordered(fields, exclude, Ignored(fs, fields, exclude, widgets, cb), fieldDict);
      PutAllKeys([], reordered);
      assert ProxyFormFields(fs, fields, exclude, widgets, cb) == FromPairs(reordered);
    }
  }

  /** When `fields` is given, a name the callback made nothing of is dropped even if another descriptor shares it. */
  lemma IgnoredNamesAreDropped(fs: seq<ProxyField>, fields: seq<string>, exclude: seq<string>,
                               widgets: map<string, Widget>, cb: FormfieldCallback, k: string)
    requires |fields| > 0 && k in Ignored(fs, fields, exclude, widgets, cb)
    ensures k !in Keys(ProxyFormFields(fs, fields, exclude, widgets, cb))
  {
    var ignored := Ignored(fs, fields, exclude, widgets, cb);
    var fieldDict := FromPairs(FieldList(fs, fields, exclude, widgets, cb));
    var reordered := Reordered(fields, exclude, ignored, fieldDict);
    PutAllKeys([], reordered);
    assert !KeepInOrder(exclude, ignored, fieldDict)(k);
  }

  /** When `fields` is given, the composed map follows its order. */
  lemma ProxyFormFieldsFollowFields(fs: seq<ProxyField>, fields: seq<string>, exclude: seq<string>,
                                    widgets: map<string, Widget>, cb: FormfieldCallback)
    requires |fields| > 0
    ensures OrderedBy(Keys(ProxyFormFields(fs, fields, exclude, widgets, cb)), fields)
  {
    var ignored := Ignored(fs, fields, exclude, widgets, cb);
    var fieldDict := FromPairs(FieldList(fs, fields, exclude, widgets, cb));
    PutAllKeys([], Reordered(fields, exclude, ignored, fieldDict));
    AddNewFilterOrdered(fields, KeepInOrder(exclude, ignored, fieldDict));
  }

  /** With name-unique descriptors, `field_list` follows declaration order. */
  lemma {:induction false} FieldListInDeclarationOrder(fs: seq<ProxyField>, fields: seq<string>, exclude: seq<string>,
                                                        widgets: map<string, Widget>, cb: FormfieldCallback)
    requires UniqueNames(fs)
    ensures OrderedBy(Keys(FieldList(fs, fields, exclude, widgets, cb)), Names(fs))
    decreases |fs|
  {
    if fs != [] {
      var n := |fs| - 1;
      var pre := fs[..n];
      var f := fs[n];
      UniqueNamesInit(fs);
      assert Names(fs) == Names(pre) + [f.name];
      FieldListInDeclarationOrder(pre, fields, exclude, widgets, cb);
      var prev := FieldList(pre, fields, exclude, widgets, cb);
      OrderedBySnoc(Keys(prev), Names(pre), f.name);
      if Accepted(f, fields, exclude) && FieldFor(f, widgets, cb).Some? {
        KeysSnoc(prev, (f.name, FieldFor(f, widgets, cb).value));
      }
    }
  }

  /** With name-unique descriptors and no `fields`, the composed map keeps declaration order. */
  lemma ProxyFormFieldsDeclarationOrder(fs: seq<ProxyField>, exclude: seq<string>,
                                        widgets: map<string, Widget>, cb: FormfieldCallback)
    requires UniqueNames(fs)
    ensures OrderedBy(Keys(ProxyFormFields(fs, [], exclude, widgets, cb)), Names(fs))
  {
    var fieldList := FieldList(fs, [], exclude, widgets, cb);
    FieldListInDeclarationOrder(fs, [], exclude, widgets, cb);
    OrderedByDistinct(Keys(fieldList), Names(fs));
    PutAllKeys([], fieldList);
    AddNewDistinct([], Keys(fieldList));
    assert [] + Keys(fieldList) == Keys(fieldList);
  }

  // ---------------------------------------------------------------------
  // _new_metaclass_new: the class-construction hook
  // ---------------------------------------------------------------------

  /**
   * The proxy fields the hook composes for a form class: the names of the
   * declared fields are added to `exclude`, so a declared field always
   * wins over a proxy field of the same name.
   */
  function HookProxyFields(options: FormOptions, declared: OrderedMap<FormField>, cb: FormfieldCallback): OrderedMap<FormField>
    requires options.model.Some?
  {
    ProxyFormFields(options.model.value.proxyFields, options.fields, options.exclude + Keys(declared), options.widgets, cb)
  }

  /** No declared field name is among the composed proxy fields. */
  lemma DeclaredFieldsShadowProxyFields(options: FormOptions, declared: OrderedMap<FormField>, cb: FormfieldCallback, k: string)
    requires options.model.Some? && k in Keys(declared)
    ensures k !in Keys(HookProxyFields(options, declared, cb))
  {
    var fs := options.model.value.proxyFields;
    var exclude := options.exclude + Keys(declared);
    if k in Keys(HookProxyFields(options, declared, cb)) {
      ProxyFormFieldsSound(fs, options.fields, exclude, options.widgets, cb, k);
      assert false;
    }
  }

  /**
   * Merging the proxy fields into `base_fields` keeps the entries and the
   * order of the existing fields, and leaves every declared field's entry
   * as it was.
   */
  lemma MergeKeepsDeclaredBaseFields(options: FormOptions, declared: OrderedMap<FormField>, base: OrderedMap<FormField>,
                                     cb: FormfieldCallback, k: string)
    requires options.model.Some? && k in Keys(declared)
    ensures Get(PutAll(base, HookProxyFields(options, declared, cb)), k) == Get(base, k)
    ensures var merged := Keys(PutAll(base, HookProxyFields(options, declared, cb)));
            |base| <= |merged| && merged[..|base|] == Keys(base)
  {
    var proxyFields := HookProxyFields(options, declared, cb);
    DeclaredFieldsShadowProxyFields(options, declared, cb, k);
    PutAllGet(base, proxyFields, k);
    PutAllKeys(base, proxyFields);
  }

  /**
   * A model-form class: what the framework's own metaclass built for it
   * (its options, declared fields and base fields), and what the hook adds.
   */
  class EntityFormClass {
    const isEntityForm: bool                  // the class derives from EntityFormBase
    const options: FormOptions                // `_meta`
    const declaredFields: OrderedMap<FormField>
    var baseFields: OrderedMap<FormField>
    var proxyFields: Option<OrderedMap<FormField>>

    /**
     * `_new_metaclass_new`: when the class is an entity form with a model,
     * compose its proxy fields (with the class's own `formfield_callback`,
     * or the descriptor's `formfield` when it has none), keep them on the
     * class and merge them into `base_fields`; otherwise change nothing.
     */
    constructor (isEntityForm: bool, options: FormOptions, declaredFields: OrderedMap<FormField>,
                 baseFields: OrderedMap<FormField>, formfieldCallback: Option<FormfieldCallback>,
                 fieldFormfield: FormfieldCallback)
      ensures this.isEntityForm == isEntityForm && this.options == options && this.declaredFields == declaredFields
      ensures isEntityForm && options.model.Some? ==>
                && this.proxyFields == Some(HookProxyFields(options, declaredFields, formfieldCallback.GetOr(fieldFormfield)))
                && this.baseFields == PutAll(baseFields, this.proxyFields.value)
      ensures !(isEntityForm && options.model.Some?) ==> this.proxyFields == None && this.baseFields == baseFields
    {
      this.isEntityForm := isEntityForm;
      this.options := options;
      this.declaredFields := declaredFields;
      this.baseFields := baseFields;
      this.proxyFields := None;
      new;
      var callback := if formfieldCallback.Some? then formfieldCallback.value else fieldFormfield;
      if isEntityForm && options.model.Some? {
        var exclude := options.exclude + Keys(declaredFields);
        var composed := ProxyFieldsForEntityModel(options.model.value, options.fields, exclude, options.widgets, callback);
        this.proxyFields := Some(composed);
        this.baseFields := PutAll(this.baseFields, composed);
      }
    }
  }

  // ---------------------------------------------------------------------
  // EntityForm.__init__ and EntityForm.save
  // ---------------------------------------------------------------------

  /** `f.value_from_object(instance)`, as a function of the instance's attribute values. */
  type ValueReader = (ProxyField, map<string, Value>) -> Value

  /** `f.get_storage_value(value)`. */
  type StorageConverter = (ProxyField, Value) -> Value

  /** An entity instance: its proxy-field descriptors and the attribute values it holds. */
  class EntityInstance {
    const proxyFields: seq<ProxyField>      // `instance._entity_meta.proxy_fields`
    var attributes: map<string, Value>      // attribute values, by attribute name
    var stored: map<string, Value>          // what the last `instance.save()` persisted

    /** An instance as loaded: what it holds is what is stored. */
    constructor (proxyFields: seq<ProxyField>, attributes: map<string, Value>)
      ensures this.proxyFields == proxyFields && this.attributes == attributes && this.stored == attributes
    {
      this.proxyFields := proxyFields;
      this.attributes := attributes;
      this.stored := attributes;
    }

    /** `instance.save()`: persist the attribute values the instance holds. */
    method Save()
      modifies this`stored
      ensures stored == attributes
    {
      stored := attributes;
    }
  }

  /** The initial values seeded from an instance: each visible proxy field's current value. */
  function ProxyInitial(fs: seq<ProxyField>, fields: seq<string>, exclude: seq<string>,
                        valueFromObject: ValueReader, attributes: map<string, Value>): map<string, Value>
    decreases |fs|
  {
    if fs == [] then map[]
    else
      var n := |fs| - 1;
      var prev := ProxyInitial(fs[..n], fields, exclude, valueFromObject, attributes);
      var f := fs[n];
      if Visible(fields, exclude, f.name) then prev[f.name := valueFromObject(f, attributes)] else prev
  }

  /** Exactly the proxy-field names that pass `fields` and `exclude` are seeded. */
  lemma {:induction false} ProxyInitialDomain(fs: seq<ProxyField>, fields: seq<string>, exclude: seq<string>,
                                              valueFromObject: ValueReader, attributes: map<string, Value>, k: string)
    ensures k in ProxyInitial(fs, fields, exclude, valueFromObject, attributes) <==> k in Names(fs) && Visible(fields, exclude, k)
    decreases |fs|
  {
    if fs != [] {
      var n := |fs| - 1;
      assert Names(fs) == Names(fs[..n]) + [fs[n].name];
      ProxyInitialDomain(fs[..n], fields, exclude, valueFromObject, attributes, k);
    }
  }

  /** With name-unique descriptors, each visible proxy field is seeded with its own current value. */
  lemma {:induction false} ProxyInitialValue(fs: seq<ProxyField>, fields: seq<string>, exclude: seq<string>,
                                             valueFromObject: ValueReader, attributes: map<string, Value>, i: nat)
    requires UniqueNames(fs) && i < |fs| && Visible(fields, exclude, fs[i].name)
    ensures fs[i].name in ProxyInitial(fs, fields, exclude, valueFromObject, attributes)
    ensures ProxyInitial(fs, fields, exclude, valueFromObject, attributes)[fs[i].name] == valueFromObject(fs[i], attributes)
    decreases |fs|
  {
    var n := |fs| - 1;
    var pre := fs[..n];
    var prev := ProxyInitial(pre, fields, exclude, valueFromObject, attributes);
    assert ProxyInitial(fs, fields, exclude, valueFromObject, attributes)
           == if Visible(fields, exclude, fs[n].name) then prev[fs[n].name := valueFromObject(fs[n], attributes)] else prev;
    if i < n {
      UniqueNamesInit(fs);
      assert pre[i] == fs[i];
      ProxyInitialValue(pre, fields, exclude, valueFromObject, attributes, i);
      assert fs[i].name in Names(pre) by {
        assert Names(pre)[i] == fs[i].name;
      }
      assert fs[i].name != fs[n].name;
    }
  }

  /**
   * The initial values `EntityForm.__init__` hands to the framework: the
   * proxy values of the instance (when there is one) for the names that
   * pass `fields` and `exclude`, overridden by the caller's `initial`.
   */
  method SeedInitial(options: FormOptions, instance: EntityInstance?, initial: Option<map<string, Value>>,
                     valueFromObject: ValueReader)
    returns (newInitial: map<string, Value>)
    ensures instance == null ==> newInitial == initial.GetOr(map[])
    ensures instance != null ==>
      newInitial == ProxyInitial(instance.proxyFields, options.fields, options.exclude, valueFromObject, instance.attributes)
                    + initial.GetOr(map[])
    ensures forall k :: k in initial.GetOr(map[]) ==> k in newInitial && newInitial[k] == initial.value[k]
  {
    newInitial := map[];
    if instance != null {
      var fs, attributes := instance.proxyFields, instance.attributes;
      for i := 0 to |fs|
        invariant newInitial == ProxyInitial(fs[..i], options.fields, options.exclude, valueFromObject, attributes)
      {
        ghost var pre := ProxyInitial(fs[..i], options.fields, options.exclude, valueFromObject, attributes);
        assert fs[..i + 1][..i] == fs[..i];
        assert ProxyInitial(fs[..i + 1], options.fields, options.exclude, valueFromObject, attributes)
               == if Visible(options.fields, options.exclude, fs[i].name)
                  then pre[fs[i].name := valueFromObject(fs[i], attributes)] else pre;
        var f := fs[i];
        if |options.fields| > 0 && f.name !in options.fields {
          continue;
        }
        if |options.exclude| > 0 && f.name in options.exclude {
          continue;
        }
        newInitial := newInitial[f.name := valueFromObject(f, attributes)];
      }
      assert fs[..|fs|] == fs;
    }
    if initial.Some? {
      newInitial := newInitial + initial.value;
    }
  }

  /** The proxy fields `save` writes back: editable, submitted, and passing `fields` and `exclude`. */
  predicate WrittenBack(f: ProxyField, fields: seq<string>, exclude: seq<string>, cleanedData: map<string, Value>) {
    f.editable && f.name in cleanedData && Visible(fields, exclude, f.name)
  }

  /** The instance's attribute values after the write-back loop of `save`. */
  function WriteBack(fs: seq<ProxyField>, fields: seq<string>, exclude: seq<string>, cleanedData: map<string, Value>,
                     storageValue: StorageConverter, attributes: map<string, Value>): (r: map<string, Value>)
    ensures attributes.Keys <= r.Keys
    ensures forall a :: a in r ==>
      (a in attributes && r[a] == attributes[a]) ||
      exists i :: 0 <= i < |fs| && WrittenBack(fs[i], fields, exclude, cleanedData) && fs[i].attname == a
                  && r[a] == storageValue(fs[i], cleanedData[fs[i].name])
    decreases |fs|
  {
    if fs == [] then attributes
    else
      var n := |fs| - 1;
      var prev := WriteBack(fs[..n], fields, exclude, cleanedData, storageValue, attributes);
      var f := fs[n];
      if WrittenBack(f, fields, exclude, cleanedData) then prev[f.attname := storageValue(f, cleanedData[f.name])] else prev
  }

  /** With attribute-unique descriptors, each written-back field's attribute holds the stored form of its submitted value. */
  lemma {:induction false} WriteBackAssigns(fs: seq<ProxyField>, fields: seq<string>, exclude: seq<string>,
                                            cleanedData: map<string, Value>, storageValue: StorageConverter,
                                            attributes: map<string, Value>, i: nat)
    requires UniqueAttnames(fs) && i < |fs| && WrittenBack(fs[i], fields, exclude, cleanedData)
    ensures fs[i].attname in WriteBack(fs, fields, exclude, cleanedData, storageValue, attributes)
    ensures WriteBack(fs, fields, exclude, cleanedData, storageValue, attributes)[fs[i].attname]
            == storageValue(fs[i], cleanedData[fs[i].name])
    decreases |fs|
  {
    var n := |fs| - 1;
    if i < n {
      WriteBackAssigns(fs[..n], fields, exclude, cleanedData, storageValue, attributes, i);
      assert fs[n].attname != fs[i].attname;
    }
  }

  /** With attribute-unique descriptors, a proxy field with no submitted value leaves its attribute as it was. */
  lemma UnsubmittedFieldUntouched(fs: seq<ProxyField>, fields: seq<string>, exclude: seq<string>,
                                  cleanedData: map<string, Value>, storageValue: StorageConverter,
                                  attributes: map<string, Value>, i: nat)
    requires UniqueAttnames(fs) && i < |fs| && fs[i].name !in cleanedData
    ensures var r := WriteBack(fs, fields, exclude, cleanedData, storageValue, attributes);
            (fs[i].attname in r <==> fs[i].attname in attributes)
            && (fs[i].attname in attributes ==> r[fs[i].attname] == attributes[fs[i].attname])
  {
  }

  /** The value accessor reads back whatever the storage conversion stored in a field's attribute. */
  ghost predicate ReadsBackStored(valueFromObject: ValueReader, storageValue: StorageConverter) {
    forall f: ProxyField, attributes: map<string, Value>, v: Value {:trigger valueFromObject(f, attributes), storageValue(f, v)} ::
      f.attname in attributes && attributes[f.attname] == storageValue(f, v) ==> valueFromObject(f, attributes) == v
  }

  /**
   * Round trip: submitting a value for a proxy field, writing it back, and
   * seeding a form of the same class from the instance gives the
   * submitted value back as that field's initial value.
   */
  lemma SaveThenReloadRoundTrip(fs: seq<ProxyField>, fields: seq<string>, exclude: seq<string>,
                                cleanedData: map<string, Value>, storageValue: StorageConverter,
                                valueFromObject: ValueReader, attributes: map<string, Value>, i: nat)
    requires UniqueNames(fs) && UniqueAttnames(fs) && i < |fs|
    requires WrittenBack(fs[i], fields, exclude, cleanedData)
    requires ReadsBackStored(valueFromObject, storageValue)
    ensures var saved := WriteBack(fs, fields, exclude, cleanedData, storageValue, attributes);
            var reloaded := ProxyInitial(fs, fields, exclude, valueFromObject, saved);
            fs[i].name in reloaded && reloaded[fs[i].name] == cleanedData[fs[i].name]
  {
    var saved := WriteBack(fs, fields, exclude, cleanedData, storageValue, attributes);
    WriteBackAssigns(fs, fields, exclude, cleanedData, storageValue, attributes, i);
    ProxyInitialValue(fs, fields, exclude, valueFromObject, saved, i);
    assert valueFromObject(fs[i], saved) == cleanedData[fs[i].name];
  }

  /** A bound entity form: its class options, instance, initial values and validated data. */
  class EntityForm {
    const options: FormOptions                // `self._meta`
    const instance: EntityInstance
    const initial: map<string, Value>         // the `initial` handed to the framework
    var cleanedData: map<string, Value>       // filled by the framework's validation, not modelled
    var m2mSaved: bool                        // `save_m2m()` has run

    /**
     * `EntityForm.__init__`. When no instance is given the framework builds
     * a blank one of the options' model, and refuses a form whose options
     * name no model.
     */
    constructor (options: FormOptions, instance: EntityInstance?, initial: Option<map<string, Value>>,
                 valueFromObject: ValueReader)
      requires instance == null ==> options.model.Some?
      ensures this.options == options
      ensures instance != null ==> this.instance == instance
      ensures instance == null ==>
        fresh(this.instance) && this.instance.proxyFields == options.model.value.proxyFields
        && this.instance.attributes == map[]
      ensures instance == null ==> this.initial == initial.GetOr(map[])
      ensures instance != null ==>
        this.initial == ProxyInitial(instance.proxyFields, options.fields, options.exclude, valueFromObject, instance.attributes)
                        + initial.GetOr(map[])
      ensures cleanedData == map[] && !m2mSaved
    {
      var newInitial := SeedInitial(options, instance, initial, valueFromObject);
      this.options := options;
      this.initial := newInitial;
      if instance == null {
        this.instance := new EntityInstance(options.model.value.proxyFields, map[]);
      } else {
        this.instance := instance;
      }
      this.cleanedData := map[];
      this.m2mSaved := false;
    }

    /**
     * `EntityForm.save`: write the stored form of each submitted proxy
     * value that passes the filters onto the instance, then persist the
     * instance and its many-to-many data only when `commit` is set.
     */
    method Save(commit: bool, storageValue: StorageConverter) returns (saved: EntityInstance)
      modifies instance, this`m2mSaved
      ensures saved == instance
      ensures instance.attributes ==
        WriteBack(instance.proxyFields, options.fields, options.exclude, cleanedData, storageValue, old(instance.attributes))
      ensures commit ==> instance.stored == instance.attributes && m2mSaved
      ensures !commit ==> instance.stored == old(instance.stored) && m2mSaved == old(m2mSaved)
    {
      var fs := instance.proxyFields;
      for i := 0 to |fs|
        invariant instance.attributes ==
          WriteBack(fs[..i], options.fields, options.exclude, cleanedData, storageValue, old(instance.attributes))
        invariant instance.stored == old(instance.stored) && m2mSaved == old(m2mSaved)
      {
        assert fs[..i + 1][..i] == fs[..i];
        var f := fs[i];
        if !f.editable || f.name !in cleanedData {
          continue;
        }
        if |options.fields| > 0 && f.name !in options.fields {
          continue;
        }
        if |options.exclude| > 0 && f.name in options.exclude {
          continue;
        }
        instance.attributes := instance.attributes[f.attname := storageValue(f, cleanedData[f.name])];
      }
      assert fs[..|fs|] == fs;
      if commit {
        instance.Save();
        m2mSaved := true;
      }
      saved := instance;
    }
  }
}
