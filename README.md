# Entity forms and the entity admin, modelled in Dafny

This project models two parts of philo's entity support. An entity keeps
some of its fields as *proxy fields*: virtual fields stored as attributes,
not as table columns.

- `forms/entities.py` composes proxy fields into model forms:
  - `proxy_fields_for_entity_model` filters an entity's proxy-field
    descriptors by `editable`, `fields`, `exclude` and the formfield callback.
    When `fields` is given, it re-orders the result to follow `fields`.
  - The form-class hook `_new_metaclass_new` excludes the declared fields and
    merges the composed fields into `base_fields`.
  - `EntityForm.__init__` seeds initial values from an instance.
  - `EntityForm.save` writes submitted proxy values back onto the instance.
- `admin/base.py` masks proxy fields from the admin's class-definition
  checks, and restores them per instance:
  - `EntityAdminMetaclass.__new__` adds the proxy names to
    `readonly_fields`, and `hide_proxy_fields` removes them from
    `raw_id_fields`. The original lists are remembered on the class.
  - `EntityAdmin.__init__` puts the remembered lists back on the instance.
  - `formfield_for_dbfield` merges `formfield_overrides` with explicit
    keyword arguments. It chooses a raw-id widget for attribute fields named
    in `raw_id_fields`.

Files:

- `wrappers.dfy`: `Option`.
- `ordered_maps.dfy` (module `OrderedMaps`): the framework's `SortedDict`.
  - It is a list of (name, value) pairs.
  - Assigning a key that is already present keeps its position and takes the
    new value. A new key goes to the end.
  - Building a dictionary from pairs, or calling `update`, assigns the pairs
    one after the other.
- `entity_forms.dfy` (module `EntityForms`): `forms/entities.py`.
- `entity_admin.dfy` (module `EntityAdmins`): `admin/base.py`.

Where the source mutates, the model does too:

- The composition loop, the initial-value loop and the write-back loop are
  methods with loop invariants. Each is proved equal to a recursive
  specification function, and the properties are lemmas about that function.
- Form classes, admin classes, admin instances, entity instances and bound
  forms are Dafny classes. Their constructors and methods state the whole new
  state.

Python treats `None` and an empty list alike for `fields`, `exclude` and
`widgets`, so both are the empty sequence here. A falsy form field from the
callback is `None`.

## Model

| member | source | states |
|---|---|---|
| OrderedMaps.Get | forms/entities.py:32 | `field_dict.get(f)` finds a value exactly when `f` is a key, and the value is one stored under `f` |
| OrderedMaps.PutKeys | forms/entities.py:56 | assigning a present key leaves the key order unchanged; a new key is appended last |
| OrderedMaps.PutGet | forms/entities.py:56 | after assigning `k`, `k` holds the new value and every other key holds its old value |
| OrderedMaps.Put | forms/entities.py:56 | after `d[k] = v` the pair `(k, v)` is present, every other pair is one that was there, and no pair of another key is lost |
| OrderedMaps.PutAll | forms/entities.py:56 | after `update(ps)` every pair comes from the old dictionary or from `ps`, and every key of `ps` is present |
| OrderedMaps.FromPairs | forms/entities.py:29 | `SortedDict(pairs)` lists each key once, in order of first appearance, holds only pairs from the list, and maps each key to the value of its last pair |
| OrderedMaps.AddNew | forms/entities.py:29 | the keys after adding pairs: the old keys first, unchanged, then each new key once |
| OrderedMaps.PutAllKeys | forms/entities.py:56 | after `update(ps)`, the old keys keep their order and the new keys follow in order of first appearance in `ps` |
| OrderedMaps.PutAllGet | forms/entities.py:56 | after `update(ps)`, a key assigned by `ps` holds the value of its last pair; any other key is unchanged |
| OrderedMaps.AddNewDistinct | forms/entities.py:29 | `SortedDict` built from pairs with distinct keys lists the keys in the same order |
| OrderedMaps.Filter | forms/entities.py:31-33 | a comprehension's filter keeps exactly the elements that satisfy its condition |
| OrderedMaps.AddNewFilterOrdered | forms/entities.py:31-34 | the names kept from `fields`, with repeats dropped, follow the first-occurrence order of `fields` |
| EntityForms.FieldListSound | forms/entities.py:13-26 | every entry of `field_list` is an editable, admitted, non-excluded descriptor's name with the form field the callback returned for it |
| EntityForms.FieldListComplete | forms/entities.py:13-26 | every editable, admitted, non-excluded descriptor the callback returns a form field for has its name in `field_list` |
| EntityForms.IgnoredSound | forms/entities.py:13-28 | every name in `ignored` belongs to a descriptor that passed the filters and for which the callback returned nothing |
| EntityForms.ComposedNamesDeclared | forms/entities.py:13-28 | `field_list` and `ignored` hold only descriptor names |
| EntityForms.FieldListNamesExactly | forms/entities.py:13-26 | with unique descriptor names, a name is in `field_list` if and only if its descriptor passes the filters and the callback returns a form field |
| EntityForms.IgnoredNamesExactly | forms/entities.py:13-28 | with unique descriptor names, a name is in `ignored` if and only if its descriptor passes the filters and the callback returns nothing |
| EntityForms.Reordered | forms/entities.py:31-34 | the re-ordered pairs are the names of `fields` that are not excluded, not ignored and present in `field_dict`, in `fields` order, each with its `field_dict` value |
| EntityForms.ProxyFieldsForEntityModel | forms/entities.py:9-35 | the loop with its `continue`s, the widget override only for names in `widgets`, and the re-ordering compute exactly `ProxyFormFields` |
| EntityForms.ProxyFormFieldsKeysUnique | forms/entities.py:29-34 | the result never lists a name twice |
| EntityForms.ProxyFormFieldsSound | forms/entities.py:13-34 | every result name belongs to an editable descriptor; it is in `fields` when `fields` is given, and not in `exclude`; its value is what the callback returned when called with that name's widget override |
| EntityForms.ProxyFormFieldsComplete | forms/entities.py:13-34 | with unique names, every editable, admitted, non-excluded descriptor the callback returns a form field for is in the result, with that form field |
| EntityForms.CallbackNoneIsAbsent | forms/entities.py:24-28 | with unique names, a descriptor the callback returns nothing for is not in the result |
| EntityForms.IgnoredNamesAreDropped | forms/entities.py:28-33 | when `fields` is given, an ignored name is absent from the result, even if another descriptor of that name produced a form field |
| EntityForms.ProxyFormFieldsFollowFields | forms/entities.py:30-34 | when `fields` is given, every result name is in `fields`, and the names appear in `fields` order |
| EntityForms.FieldListInDeclarationOrder | forms/entities.py:13-26 | with unique names, `field_list` follows the descriptors' declaration order |
| EntityForms.ProxyFormFieldsDeclarationOrder | forms/entities.py:13-30 | with unique names and no `fields`, the result follows the descriptors' declaration order |
| EntityForms.DeclaredFieldsShadowProxyFields | forms/entities.py:53-55 | no declared field's name is among the class's proxy fields |
| EntityForms.MergeKeepsDeclaredBaseFields | forms/entities.py:53-56 | merging the proxy fields into `base_fields` leaves declared fields' entries as they were and keeps the existing fields first, in order |
| EntityForms.EntityFormClass.constructor | forms/entities.py:45-57 | an entity form with a model gets the composed proxy fields, with `declared_fields` added to `exclude` and the class callback or else the descriptor's `formfield`, merged into `base_fields`; any other class is unchanged |
| EntityForms.EntityInstance.Save | forms/entities.py:98 | `instance.save()` persists the attribute values the instance holds |
| EntityForms.ProxyInitialDomain | forms/entities.py:70-75 | exactly the proxy-field names that pass `fields` and `exclude` are seeded, whether editable or not |
| EntityForms.ProxyInitialValue | forms/entities.py:70-75 | with unique names, each seeded name holds `value_from_object` of its own descriptor |
| EntityForms.SeedInitial | forms/entities.py:66-80 | with no instance, the initial values are the caller's; otherwise they are the seeded proxy values updated with the caller's, and every caller value wins |
| EntityForms.WriteBack | forms/entities.py:88-95 | the write-back keeps every attribute, and changes only attributes of editable, submitted, admitted, non-excluded fields, to the stored form of the submitted value |
| EntityForms.WriteBackAssigns | forms/entities.py:88-95 | with unique attribute names, each such field's attribute holds the stored form of its submitted value |
| EntityForms.UnsubmittedFieldUntouched | forms/entities.py:89-90 | with unique attribute names, a proxy field missing from `cleaned_data` leaves its attribute as it was |
| EntityForms.SaveThenReloadRoundTrip | forms/entities.py:70-95 | with unique names and unique attribute names, when the value accessor reads back what the storage conversion stored, a saved field's value seeds the next form's initial value |
| EntityForms.EntityForm.constructor | forms/entities.py:65-81 | callable with an instance whatever the options' model; the form holds the seeded initial values and the given instance, or a fresh blank one when none is given |
| EntityForms.EntityForm.Save | forms/entities.py:84-101 | the instance's attributes become the write-back of the submitted data; the instance and its many-to-many data are saved only when `commit` is set, and nothing is saved otherwise |
| EntityAdmins.ListOfSet | admin/base.py:37-38 | `list(set)` holds each element of the set exactly once |
| EntityAdmins.ProxyNamesAreEditableProxyFields | admin/base.py:49 | the masked names are editable proxy fields of the form's model that have a form field |
| EntityAdmins.AdminClass.HideProxyFields | admin/base.py:34-38 | with no overlap, nothing changes; otherwise the deduplicated original list is remembered under `raw_id_fields`, other remembered entries stay, and the list becomes the original minus the proxy names |
| EntityAdmins.AdminClass.Mask | admin/base.py:51-62 | given the proxy names, `_real_readonly_fields` is set only if `readonly_fields` is declared or nothing is remembered yet; `readonly_fields` becomes, as a set, the old set plus the proxy names; `_hidden_attributes` starts empty, then `raw_id_fields` is hidden; afterwards no proxy name is a raw-id field |
| EntityAdmins.AdminClass.constructor | admin/base.py:42-64 | attributes are declared, else inherited, else the defaults; only an entity form with a model masks, with the keys of `proxy_fields_for_entity_model(model)` as proxy names, and then the masked state holds; a subclass that redeclares neither form nor readonly fields keeps the parent's readonly set and remembered list; if it also keeps `raw_id_fields`, it remembers no raw-id list |
| EntityAdmins.EntityAdmin.constructor | admin/base.py:73-81 | an instance's `readonly_fields` is the remembered list if there is one, else the class's; its `raw_id_fields` is the hidden list if there is one, else the class's |
| EntityAdmins.DefineAndInstantiate | admin/base.py:44-79 | a subclass of `EntityAdmin` with an entity form masks the proxy names on the class; its instance gets the declared readonly list back exactly, and `raw_id_fields` with the same elements |
| EntityAdmins.MergeOverrides | admin/base.py:94-95 | merging `formfield_overrides` with explicit arguments keeps every explicit argument and fills in the overrides for the rest |
| EntityAdmins.ForeignKeyAttributeKwargs | admin/base.py:114-126 | a name in `raw_id_fields` gets exactly one new argument, a foreign-key raw-id widget built with the field and the `using` argument; every other argument, and every argument of any other name, is passed on unchanged |
| EntityAdmins.ManyToManyAttributeKwargs | admin/base.py:128-139 | a name in `raw_id_fields` gets a many-to-many raw-id widget built with the field and the `using` argument and an empty `help_text`; every other argument, and every argument of any other name, is passed on unchanged |
| EntityAdmins.FormfieldForDbfield | admin/base.py:83-111 | only attribute fields without choices are handled here, without `request`; a merged argument named `self`, `db_field` or `request` makes the call raise, naming exactly those; otherwise explicit arguments win over overrides, overrides fill in the rest, a raw-id widget, carrying `using`, is chosen exactly for names in `raw_id_fields`, and for many-to-many `help_text` is also cleared; other fields go to the framework unchanged, `request` included |
| EntityAdmins.OverrideRequestRaises | admin/base.py:89-101 | an override for `request` on a handled field class makes the call raise rather than reach `db_field.formfield` |

## Left out

- The ORM is not modelled. `value_from_object` and `get_storage_value` are function parameters over an instance's attribute map. `_entity_meta` is the model's descriptor list.
- `instance.save()` and `save_m2m()` are modelled only as state changes (the stored attributes, a flag). The framework's `ModelForm.save(commit=False)` for concrete fields and its validation that fills `cleaned_data` are not modelled.
- Form fields, widgets and field values are foreign objects: opaque handles. `db_field.formfield(**kwargs)` is modelled by the keyword arguments it receives. The admin's raw-id widgets are values carrying their field and `using`.
- The global replacement of `ModelFormMetaclass.__new__` is not modelled. The hook is the `EntityFormClass` constructor, applied to what the framework's metaclass built.
- `AttributeInline`, `TagAdmin.response_add`, `AddTagAdmin`, `TreeAdmin`, `TreeEntityAdmin` and admin registration are not modelled. They are configuration, HTTP output or ORM-dependent views.
- The framework's own `ModelAdmin.formfield_for_dbfield` and `ModelAdmin.__init__` are not modelled. The model says which arguments reach them.
- EntityForms.EntityForm.constructor: requires options that name a model when no instance is given. The framework raises `ValueError` for that case in `super().__init__`, after the initial values are seeded; the model does not represent the raise.
- EntityForms.CallbackNoneIsAbsent, EntityForms.ProxyFormFieldsComplete, EntityForms.FieldListInDeclarationOrder, EntityForms.ProxyFormFieldsDeclarationOrder, EntityForms.ProxyInitialValue, EntityForms.SaveThenReloadRoundTrip: require unique descriptor names. With repeated names, another descriptor of the same name can supply the entry, and the source makes no promise then.
- EntityForms.WriteBackAssigns, EntityForms.UnsubmittedFieldUntouched, EntityForms.SaveThenReloadRoundTrip: require unique attribute names, for the same reason.
- EntityAdmins.ListOfSet: leaves the order of `list(set(...))` unspecified, as Python does. Only the elements and the absence of repeats are stated.
- EntityAdmins.AdminClass.HideProxyFields: is specialised to `raw_id_fields`, its only caller's attribute. The admin's `_hidden_attributes` therefore only ever holds that key.
- EntityAdmins.AdminClass.constructor: the admin's `form` is always present, because `ModelAdmin` declares one, so the `if form:` test is always true.
- A masked admin subclass that redeclares neither its form nor `raw_id_fields` remembers no raw-id list. Its instances keep the stripped `raw_id_fields`. The model states this as the source has it; it is not corrected.
- The foreign-key raw-id widget receives the database alias positionally and the many-to-many one as `using=`; both are modelled as a widget value carrying that alias, since the widgets themselves are not modelled.
- EntityAdmins.FieldClass: one value per field class stands both for the `isinstance` dispatch and for the `formfield_overrides` key `db_field.__class__`. A subclass of `ForeignKeyAttribute` or `ManyToManyAttribute`, which is dispatched like its base but looked up under its own class, cannot be expressed.
- EntityAdmins.FormfieldForDbfield: a caller's own keyword argument named `self` or `db_field` already fails at the call to `formfield_for_dbfield`. The model does not represent that failure separately: on the handled path it reports the bound-twice error, and on the inherited path it passes the arguments on.
