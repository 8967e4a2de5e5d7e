/**
 * The style cascade. Four tiers are combined into one catalog: the built-in
 * default table, then the institution's stored preset, then the hints
 * extracted from the rules text, then the user's own override, each later
 * tier overwriting the earlier ones field by field. After the merge every
 * string `align` is upper-cased and the result is validated as a
 * `GlobalStyleConfig`.
 */
module Merger {
  import opened Wrappers
  import opened JsonValues
  import opened PyStr
  import opened Schema

  /**
   * The bottom tier. It has entries for four of the six slots only:
   * `heading_3` and `caption` are missing, so they resolve to the empty
   * style unless some other tier supplies them.
   */
  const SystemDefault: map<string, Json> := map[
    "global_default" := JObj(map["family" := JStr("SimSun"), "size" := JNum(12.0), "line_spacing" := JNum(1.5),
                                 "color" := JStr("000000"), "align" := JStr("JUSTIFY")]),
    "heading_1" := JObj(map["family" := JStr("SimHei"), "size" := JNum(16.0), "bold" := JBool(true),
                            "align" := JStr("CENTER"), "line_spacing" := JNum(1.5)]),
    "heading_2" := JObj(map["family" := JStr("SimHei"), "size" := JNum(14.0), "bold" := JBool(true),
                            "align" := JStr("LEFT"), "line_spacing" := JNum(1.5)]),
    "body_text" := JObj(map["family" := JStr("SimSun"), "size" := JNum(12.0), "line_spacing" := JNum(1.5),
                            "align" := JStr("JUSTIFY")])
  ]

  // ------------------------------------------------------- deep update

  /** Keys whose source value is not None: the ones a deep update may write. */
  function WrittenKeys(source: map<string, Json>): set<string>
  {
    set k | k in source && source[k] != JNull
  }

  /**
   * The dictionary `_deep_update(target, source)` leaves behind: a mapping
   * meeting a mapping is merged recursively, any other non-None source value
   * replaces the target's value (or is added), and a None source value is
   * never written.
   */
  function DeepUpdated(target: map<string, Json>, source: map<string, Json>): (r: map<string, Json>)
    ensures r.Keys == target.Keys + WrittenKeys(source)
    ensures NullFree(target) ==> NullFree(r)
    decreases JObj(source)
  {
    map k | k in target.Keys + WrittenKeys(source) ::
      if k !in source || source[k] == JNull then target[k]
      else if source[k].JObj? && k in target && target[k].JObj? then JObj(DeepUpdated(target[k].fields, source[k].fields))
      else source[k]
  }

  /**
   * `_deep_update`: walks the source's keys and writes each into the target,
   * recursing where a mapping meets a mapping.
   */
  method DeepUpdate(target: map<string, Json>, source: map<string, Json>) returns (updated: map<string, Json>)
    ensures updated == DeepUpdated(target, source)
    decreases JObj(source)
  {
    updated := target;
    var pending := source.Keys;
    while pending != {}
      invariant pending <= source.Keys
      invariant updated == DeepUpdated(target, source - pending)
      decreases pending
    {
      var key :| key in pending;
      var value := source[key];
      ghost var done := source - pending;
      assert source - (pending - {key}) == done[key := value];
      DeepUpdatedStep(target, done, key, value);
      if value.JObj? && key in updated && updated[key].JObj? {
        var merged := DeepUpdate(updated[key].fields, value.fields);
        updated := updated[key := JObj(merged)];
      } else if value != JNull {
        updated := updated[key := value];
      }
      pending := pending - {key};
    }
    assert source - pending == source;
  }

  /** Adding one more key to the source leaves every other key of the result as it was. */
  lemma DeepUpdatedElsewhere(target: map<string, Json>, done: map<string, Json>, key: string, value: Json)
    ensures var before := DeepUpdated(target, done);
            var after := DeepUpdated(target, done[key := value]);
            forall k :: k != key ==> (k in after <==> k in before) && (k in after ==> after[k] == before[k])
  {
  }

  /** What one more key, absent from the source so far, writes at that key. */
  function StepValue(before: map<string, Json>, key: string, value: Json): map<string, Json>
  {
    if value == JNull then before
    else if value.JObj? && key in before && before[key].JObj? then before[key := JObj(DeepUpdated(before[key].fields, value.fields))]
    else before[key := value]
  }

  /** Adding one more key to the source changes the result at that key only, as one pass of the loop does. */
  lemma DeepUpdatedStep(target: map<string, Json>, done: map<string, Json>, key: string, value: Json)
    requires key !in done
    ensures DeepUpdated(target, done[key := value]) == StepValue(DeepUpdated(target, done), key, value)
  {
    var after := DeepUpdated(target, done[key := value]);
    var expected := StepValue(DeepUpdated(target, done), key, value);
    forall k
      ensures (k in after <==> k in expected) && (k in after ==> after[k] == expected[k])
    {
      DeepUpdatedStepAt(target, done, key, value, k);
    }
    assert after.Keys == expected.Keys;
  }

  /** The step, read at one key. */
  lemma DeepUpdatedStepAt(target: map<string, Json>, done: map<string, Json>, key: string, value: Json, k: string)
    requires key !in done
    ensures var after := DeepUpdated(target, done[key := value]);
            var expected := StepValue(DeepUpdated(target, done), key, value);
            (k in after <==> k in expected) && (k in after ==> after[k] == expected[k])
  {
    if k == key {
      DeepUpdatedAtKey(target, done, key, value);
    } else {
      DeepUpdatedElsewhere(target, done, key, value);
    }
  }

  /** At the added key itself, the result is what one pass of the loop writes there. */
  lemma DeepUpdatedAtKey(target: map<string, Json>, done: map<string, Json>, key: string, value: Json)
    requires key !in done
    ensures var after := DeepUpdated(target, done[key := value]);
            var expected := StepValue(DeepUpdated(target, done), key, value);
            (key in after <==> key in expected) && (key in after ==> after[key] == expected[key])
  {
    var before := DeepUpdated(target, done);
    assert key in before <==> key in target;
    assert key in before ==> before[key] == target[key];
  }

  /** A None in the source never overwrites, and keys the source does not mention keep their values. */
  lemma NoneNeverOverwrites(target: map<string, Json>, source: map<string, Json>, k: string)
    requires k in target && (k !in source || source[k] == JNull)
    ensures k in DeepUpdated(target, source) && DeepUpdated(target, source)[k] == target[k]
  {
  }

  /** A mapping meeting a mapping is merged field by field: fields the source gives win, fields it leaves out (or sets to None) are kept. */
  lemma MappingsMergeFieldwise(target: map<string, Json>, source: map<string, Json>, k: string, g: string)
    requires k in target && target[k].JObj? && k in source && source[k].JObj?
    ensures k in DeepUpdated(target, source) && DeepUpdated(target, source)[k].JObj?
    ensures g in target[k].fields && (g !in source[k].fields || source[k].fields[g] == JNull) ==>
              g in DeepUpdated(target, source)[k].fields && DeepUpdated(target, source)[k].fields[g] == target[k].fields[g]
    ensures g in source[k].fields && source[k].fields[g] != JNull && !source[k].fields[g].JObj? ==>
              g in DeepUpdated(target, source)[k].fields && DeepUpdated(target, source)[k].fields[g] == source[k].fields[g]
  {
  }

  /** A non-None source value meeting anything but a mapping (or nothing) replaces it wholesale. */
  lemma OtherwiseReplacedWholesale(target: map<string, Json>, source: map<string, Json>, k: string)
    requires k in source && source[k] != JNull
    requires k !in target || !target[k].JObj? || !source[k].JObj?
    ensures k in DeepUpdated(target, source) && DeepUpdated(target, source)[k] == source[k]
  {
  }

  /** Deep-updating a dictionary with itself changes nothing. */
  lemma {:induction false} DeepUpdateWithItself(m: map<string, Json>)
    ensures DeepUpdated(m, m) == m
    decreases JObj(m)
  {
    forall k | k in m && m[k].JObj?
      ensures DeepUpdated(m[k].fields, m[k].fields) == m[k].fields
    {
      DeepUpdateWithItself(m[k].fields);
    }
    assert forall k :: k in m ==> DeepUpdated(m, m)[k] == m[k];
  }

  /** Applying the same source twice leaves the same dictionary as applying it once. */
  lemma {:induction false} DeepUpdateIdempotent(target: map<string, Json>, source: map<string, Json>)
    ensures DeepUpdated(DeepUpdated(target, source), source) == DeepUpdated(target, source)
    decreases JObj(source)
  {
    var once := DeepUpdated(target, source);
    forall k | k in source && source[k].JObj?
      ensures DeepUpdated(once, source)[k] == once[k]
    {
      if k in target && target[k].JObj? {
        DeepUpdateIdempotent(target[k].fields, source[k].fields);
      } else {
        DeepUpdateWithItself(source[k].fields);
      }
    }
    assert forall k :: k in once ==> DeepUpdated(once, source)[k] == once[k];
  }

  // -------------------------------------------------- reading one field

  /** The value a catalog-shaped dictionary gives field `field` of slot `slot`; None when it gives none. */
  function ValueAt(c: map<string, Json>, slot: string, field: string): Json
  {
    if slot in c && c[slot].JObj? && field in c[slot].fields then c[slot].fields[field] else JNull
  }

  /** A source that gives `slot.field` a plain value (neither None nor a mapping) decides that field. */
  lemma SetFieldWins(c: map<string, Json>, s: map<string, Json>, slot: string, field: string)
    requires ValueAt(s, slot, field) != JNull && !ValueAt(s, slot, field).JObj?
    ensures ValueAt(DeepUpdated(c, s), slot, field) == ValueAt(s, slot, field)
  {
  }

  /** A source that says nothing about `slot.field` leaves whatever value the target gave it. */
  lemma SilentFieldKept(c: map<string, Json>, s: map<string, Json>, slot: string, field: string)
    requires slot !in s || s[slot] == JNull || (s[slot].JObj? && ValueAt(s, slot, field) == JNull)
    ensures ValueAt(DeepUpdated(c, s), slot, field) == ValueAt(c, slot, field)
  {
  }

  // ------------------------------------------------------------- tiers

  datatype MergeError = NotAMapping(tier: string) | Invalid(error: ValidationError)

  /**
   * One tier step of `merge`: a falsy tier (None, or an empty value) is
   * skipped; a mapping is deep-updated into the accumulator; any other value
   * fails, since it has no `items()`.
   */
  function ApplyTier(config: map<string, Json>, tier: Json, name: string): (r: Result<map<string, Json>, MergeError>)
    ensures r.Ok? <==> !Truthy(tier) || tier.JObj?
    ensures !Truthy(tier) ==> r == Ok(config)
  {
    if !Truthy(tier) then Ok(config)
    else if tier.JObj? then Ok(DeepUpdated(config, tier.fields))
    else Err(NotAMapping(name))
  }

  /** Re-applying a tier that has just been applied changes nothing. */
  lemma ApplyTierIdempotent(config: map<string, Json>, tier: Json, name: string)
    requires ApplyTier(config, tier, name).Ok?
    ensures ApplyTier(ApplyTier(config, tier, name).value, tier, name) == ApplyTier(config, tier, name)
  {
    if Truthy(tier) {
      DeepUpdateIdempotent(config, tier.fields);
    }
  }

  /**
   * The three tiers applied over a base table in rising priority: preset,
   * then extracted hints, then the user's override. `merge` uses the default
   * table as the base.
   */
  function CascadeFrom(base: map<string, Json>, user: Json, rag: Json, preset: Json): (r: Result<map<string, Json>, MergeError>)
    ensures r.Ok? && NullFree(base) ==> NullFree(r.value)
  {
    match ApplyTier(base, preset, "json_preset_dict")
    case Err(e) => Err(e)
    case Ok(afterPreset) =>
      match ApplyTier(afterPreset, rag, "rag_extracted_dict")
      case Err(e) => Err(e)
      case Ok(afterRag) => ApplyTier(afterRag, user, "user_prompt_dict")
  }

  /** The tier gives `slot.field` a plain value. */
  predicate Sets(tier: Json, slot: string, field: string)
  {
    Truthy(tier) && tier.JObj? && ValueAt(tier.fields, slot, field) != JNull && !ValueAt(tier.fields, slot, field).JObj?
  }

  /** The tier contributes nothing to `slot.field`: it is skipped, lacks the slot, has None there, or has a mapping without the field. */
  predicate Silent(tier: Json, slot: string, field: string)
  {
    || !Truthy(tier)
    || (tier.JObj? && (slot !in tier.fields || tier.fields[slot] == JNull ||
                       (tier.fields[slot].JObj? && ValueAt(tier.fields, slot, field) == JNull)))
  }

  /**
   * Later wins: the user's value beats the extracted hints', which beat the
   * preset's, which beat the default table's; a silent tier leaves the value
   * of the tiers below it.
   */
  lemma CascadePriority(base: map<string, Json>, user: Json, rag: Json, preset: Json, slot: string, field: string)
    requires CascadeFrom(base, user, rag, preset).Ok?
    ensures var v := ValueAt(CascadeFrom(base, user, rag, preset).value, slot, field);
            && (Sets(user, slot, field) ==> v == ValueAt(user.fields, slot, field))
            && (Silent(user, slot, field) && Sets(rag, slot, field) ==> v == ValueAt(rag.fields, slot, field))
            && (Silent(user, slot, field) && Silent(rag, slot, field) && Sets(preset, slot, field) ==>
                  v == ValueAt(preset.fields, slot, field))
            && (Silent(user, slot, field) && Silent(rag, slot, field) && Silent(preset, slot, field) ==>
                  v == ValueAt(base, slot, field))
  {
    var c1 := ApplyTier(base, preset, "json_preset_dict").value;
    var c2 := ApplyTier(c1, rag, "rag_extracted_dict").value;
    assert ApplyTier(c2, user, "user_prompt_dict") == CascadeFrom(base, user, rag, preset);
    TierStep(base, preset, "json_preset_dict", slot, field);
    TierStep(c1, rag, "rag_extracted_dict", slot, field);
    TierStep(c2, user, "user_prompt_dict", slot, field);
  }

  /** One tier step: a tier that sets the field decides it, and a silent tier keeps the accumulator's value. */
  lemma TierStep(config: map<string, Json>, tier: Json, name: string, slot: string, field: string)
    requires ApplyTier(config, tier, name).Ok?
    ensures Sets(tier, slot, field) ==> ValueAt(ApplyTier(config, tier, name).value, slot, field) == ValueAt(tier.fields, slot, field)
    ensures Silent(tier, slot, field) ==> ValueAt(ApplyTier(config, tier, name).value, slot, field) == ValueAt(config, slot, field)
  {
    if Truthy(tier) {
      if Sets(tier, slot, field) { SetFieldWins(config, tier.fields, slot, field); }
      if Silent(tier, slot, field) { SilentFieldKept(config, tier.fields, slot, field); }
    }
  }

  // ----------------------------------------------------- normalisation

  /** One catalog entry after the align fix-up: a string `align` is upper-cased, everything else is left alone. */
  function NormalizedEntry(v: Json): Json
  {
    if v.JObj? && "align" in v.fields && v.fields["align"].JStr? then
      JObj(v.fields["align" := JStr(Upper(v.fields["align"].s))])
    else v
  }

  /** The post-merge pass over every entry. */
  function AlignNormalized(c: map<string, Json>): (r: map<string, Json>)
    ensures r.Keys == c.Keys
    ensures NullFree(c) ==> NullFree(r)
  {
    map k | k in c :: NormalizedEntry(c[k])
  }

  /** How a field's merged value reads after the fix-up: only a string `align` changes, to its upper-case form. */
  function NormalizedValue(field: string, v: Json): Json
  {
    if field == "align" && v.JStr? then JStr(Upper(v.s)) else v
  }

  /** The fix-up upper-cases every string `align`, leaves every other field and every non-string `align` as it was, and never adds or drops a slot. */
  lemma AlignNormalizedReads(c: map<string, Json>, slot: string, field: string)
    ensures ValueAt(AlignNormalized(c), slot, field) == NormalizedValue(field, ValueAt(c, slot, field))
    ensures ValueAt(AlignNormalized(c), slot, "align").JStr? ==> IsUpper(ValueAt(AlignNormalized(c), slot, "align").s)
    ensures slot in c ==> (AlignNormalized(c)[slot].JObj? <==> c[slot].JObj?)
  {
    if slot in c && c[slot].JObj? && "align" in c[slot].fields && c[slot].fields["align"].JStr? {
      UpperNormalizes(c[slot].fields["align"].s);
    }
  }

  /** Running the fix-up a second time changes nothing. */
  lemma AlignNormalizedIdempotent(c: map<string, Json>)
    ensures AlignNormalized(AlignNormalized(c)) == AlignNormalized(c)
  {
    var once := AlignNormalized(c);
    forall k | k in c
      ensures NormalizedEntry(once[k]) == once[k]
    {
      NormalizedEntryIdempotent(c[k]);
    }
    assert AlignNormalized(once).Keys == once.Keys;
  }

  /** The fix-up of one entry, run twice, is the fix-up run once. */
  lemma NormalizedEntryIdempotent(v: Json)
    ensures NormalizedEntry(NormalizedEntry(v)) == NormalizedEntry(v)
  {
    if v.JObj? && "align" in v.fields && v.fields["align"].JStr? {
      var once := NormalizedEntry(v);
      UpperNormalizes(v.fields["align"].s);
      assert once.fields["align" := JStr(Upper(Upper(v.fields["align"].s)))] == once.fields;
    }
  }

  // ----------------------------------------------------------- resolve

  /** The cascade over a base table, the align fix-up, then validation of the whole catalog. */
  function ResolveFrom(base: map<string, Json>, user: Json, rag: Json, preset: Json): Result<GlobalStyleConfig, MergeError>
  {
    match CascadeFrom(base, user, rag, preset)
    case Err(e) => Err(e)
    case Ok(merged) => Validate(AlignNormalized(merged))
  }

  /** `MergerEngine.merge` as a value: the resolution over the default table. */
  function Resolve(user: Json, rag: Json, preset: Json): Result<GlobalStyleConfig, MergeError>
  {
    ResolveFrom(SystemDefault, user, rag, preset)
  }

  /** Validation of the normalised table into the catalog type, its errors wrapped. */
  function Validate(config: map<string, Json>): Result<GlobalStyleConfig, MergeError>
  {
    match CatalogFromJson(config)
    case Ok(c) => Ok(c)
    case Err(e) => Err(Invalid(e))
  }

  /** The in-place fix-up loop of `merge`: every entry holding a string `align` gets it upper-cased. */
  method NormalizeAligns(config: map<string, Json>) returns (normalized: map<string, Json>)
    ensures normalized == AlignNormalized(config)
  {
    normalized := config;
    var pending := config.Keys;
    while pending != {}
      invariant pending <= config.Keys && normalized.Keys == config.Keys
      invariant forall k :: k in config ==> normalized[k] == if k in pending then config[k] else NormalizedEntry(config[k])
      decreases pending
    {
      var key :| key in pending;
      var value := normalized[key];
      if value.JObj? && "align" in value.fields && value.fields["align"].JStr? {
        normalized := normalized[key := JObj(value.fields["align" := JStr(Upper(value.fields["align"].s))])];
      }
      pending := pending - {key};
    }
  }

  /** One tier step of `merge`, deep-updating the accumulator in place. */
  method MergeTier(config: map<string, Json>, tier: Json, name: string) returns (r: Result<map<string, Json>, MergeError>)
    ensures r == ApplyTier(config, tier, name)
  {
    if !Truthy(tier) {
      return Ok(config);
    }
    if !tier.JObj? {
      return Err(NotAMapping(name));
    }
    var updated := DeepUpdate(config, tier.fields);
    return Ok(updated);
  }

  /** The tier steps of `merge`: preset, extracted hints, then the user's override, each deep-updated into a copy of the base table. */
  method MergeTiers(base: map<string, Json>, userPrompt: Json, ragExtracted: Json, jsonPreset: Json) returns (r: Result<map<string, Json>, MergeError>)
    ensures r == CascadeFrom(base, userPrompt, ragExtracted, jsonPreset)
  {
    var afterPreset := MergeTier(base, jsonPreset, "json_preset_dict");
    match afterPreset {
      case Err(e) => r := Err(e);
      case Ok(c1) =>
        var afterRag := MergeTier(c1, ragExtracted, "rag_extracted_dict");
        match afterRag {
          case Err(e) => r := Err(e);
          case Ok(c2) =>
            assert CascadeFrom(base, userPrompt, ragExtracted, jsonPreset) == ApplyTier(c2, userPrompt, "user_prompt_dict");
            r := MergeTier(c2, userPrompt, "user_prompt_dict");
        }
    }
  }

  /**
   * `MergerEngine.merge`: starts from a copy of the default table, deep-updates
   * it with each truthy tier in rising priority, upper-cases every string
   * `align` in place, and validates.
   */
  method Merge(userPrompt: Json, ragExtracted: Json, jsonPreset: Json) returns (r: Result<GlobalStyleConfig, MergeError>)
    ensures r == Resolve(userPrompt, ragExtracted, jsonPreset)
  {
    var finalConfig :- MergeTiers(SystemDefault, userPrompt, ragExtracted, jsonPreset);
    finalConfig := NormalizeAligns(finalConfig);
    r := Validate(finalConfig);
  }

  // ----------------------------------------------- what the catalog holds

  /**
   * Every slot of a resolved catalog holds a record; each field of it is the
   * merged value for that field, after the align fix-up, coerced; and a field
   * counts as set exactly when the merged entry names it.
   */
  lemma ResolvedField(base: map<string, Json>, user: Json, rag: Json, preset: Json, slot: string, f: StyleField)
    requires NullFree(base)
    requires ResolveFrom(base, user, rag, preset).Ok?
    requires slot in SlotNames
    ensures CascadeFrom(base, user, rag, preset).Ok?
    ensures var merged := CascadeFrom(base, user, rag, preset).value;
            var style := Attr(ResolveFrom(base, user, rag, preset).value, slot);
            && style.Some?
            && Some(style.value.Get(f)) == CoerceField(f, NormalizedValue(FieldName(f), ValueAt(merged, slot, FieldName(f))))
            && (f in style.value.fieldsSet <==> slot in merged && merged[slot].JObj? && FieldName(f) in merged[slot].fields)
  {
    var merged := CascadeFrom(base, user, rag, preset).value;
    var n := AlignNormalized(merged);
    assert ResolveFrom(base, user, rag, preset) == Ok(CatalogFromJson(n).value);
    CatalogField(n, slot, f);
    AlignNormalizedReads(merged, slot, FieldName(f));
    if slot in n {
      assert n[slot] == NormalizedEntry(merged[slot]);
    }
  }

  /** Each field of a validated catalog's slot is the slot entry's value, coerced, and counts as set exactly when the entry names it. */
  lemma CatalogField(n: map<string, Json>, slot: string, f: StyleField)
    requires NullFree(n)
    requires CatalogFromJson(n).Ok?
    requires slot in SlotNames
    ensures var style := Attr(CatalogFromJson(n).value, slot);
            && style.Some?
            && Some(style.value.Get(f)) == CoerceField(f, ValueAt(n, slot, FieldName(f)))
            && (f in style.value.fieldsSet <==> slot in n && n[slot].JObj? && FieldName(f) in n[slot].fields)
  {
    CatalogPopulated(n);
    if slot !in n {
      EmptyStyleHasNoValues(f);
    }
  }

  /**
   * The priority order as the resolved catalog shows it: each field of each
   * slot comes from the user's override if it sets one, else from the
   * extracted hints, else from the preset, else from the base table.
   */
  lemma ResolvedFromWinningTier(base: map<string, Json>, user: Json, rag: Json, preset: Json, slot: string, f: StyleField)
    requires NullFree(base)
    requires ResolveFrom(base, user, rag, preset).Ok?
    requires slot in SlotNames
    ensures Attr(ResolveFrom(base, user, rag, preset).value, slot).Some?
    ensures var got := Some(Attr(ResolveFrom(base, user, rag, preset).value, slot).value.Get(f));
            var name := FieldName(f);
            && (Sets(user, slot, name) ==>
                  got == CoerceField(f, NormalizedValue(name, ValueAt(user.fields, slot, name))))
            && (Silent(user, slot, name) && Sets(rag, slot, name) ==>
                  got == CoerceField(f, NormalizedValue(name, ValueAt(rag.fields, slot, name))))
            && (Silent(user, slot, name) && Silent(rag, slot, name) && Sets(preset, slot, name) ==>
                  got == CoerceField(f, NormalizedValue(name, ValueAt(preset.fields, slot, name))))
            && (Silent(user, slot, name) && Silent(rag, slot, name) && Silent(preset, slot, name) ==>
                  got == CoerceField(f, NormalizedValue(name, ValueAt(base, slot, name))))
  {
    ResolvedField(base, user, rag, preset, slot, f);
    CascadePriority(base, user, rag, preset, slot, FieldName(f));
  }

  // ---------------------------------------------------------- validity

  /** The normalised table validates as a catalog. */
  predicate Validates(c: map<string, Json>)
  {
    CatalogFromJson(AlignNormalized(c)).Ok?
  }

  /** A resolution succeeds once its cascade does and the merged table validates. */
  lemma ResolveOkWhenValid(base: map<string, Json>, user: Json, rag: Json, preset: Json)
    requires CascadeFrom(base, user, rag, preset).Ok?
    requires Validates(CascadeFrom(base, user, rag, preset).value)
    ensures ResolveFrom(base, user, rag, preset).Ok?
  {
  }

  /** The default table's aligns are already upper-case, so the fix-up leaves it as it is. */
  lemma DefaultTableNormalized()
    ensures AlignNormalized(SystemDefault) == SystemDefault
  {
    forall k | k in SystemDefault
      ensures NormalizedEntry(SystemDefault[k]) == SystemDefault[k]
    {
      DefaultEntryNormalized(k);
    }
  }

  /** One entry of the default table: its align is one of the accepted names, already upper-case. */
  lemma DefaultEntryNormalized(k: string)
    requires k in SystemDefault
    ensures NormalizedEntry(SystemDefault[k]) == SystemDefault[k]
  {
    var m := SystemDefault[k].fields;
    var a := m["align"].s;
    assert a in AlignmentNames;
    AlignmentNamesUpper(AlignmentFromName(a).value);
    assert m["align" := JStr(Upper(a))] == m;
  }

  /** No entry of the default table is None. */
  lemma DefaultTableNullFree()
    ensures NullFree(SystemDefault)
  {
    forall k | k in SystemDefault ensures SystemDefault[k].JObj? { }
  }

  /** Every field of every entry of the default table coerces. */
  lemma DefaultEntryValid(name: string, f: StyleField)
    requires name in SystemDefault
    ensures SystemDefault[name].JObj? && Coercible(SystemDefault[name].fields, f)
  {
  }

  /** Every entry of the default table is a record whose every field coerces, and none is None. */
  lemma DefaultTableValid()
    ensures Validates(SystemDefault)
    ensures NullFree(SystemDefault)
  {
    DefaultTableNullFree();
    DefaultTableNormalized();
    forall name | name in SlotNames && name in SystemDefault
      ensures SlotFromJson(SystemDefault, name).Ok?
    {
      forall f: StyleField
        ensures Coercible(SystemDefault[name].fields, f)
      {
        DefaultEntryValid(name, f);
      }
    }
  }

  /** A slot validates when it is absent, or a record each of whose fields, as read from the table, coerces. */
  lemma SlotValidByFields(c: map<string, Json>, name: string)
    requires name in c ==> c[name].JObj?
    requires forall g :: CoerceField(g, ValueAt(c, name, FieldName(g))).Some?
    ensures SlotFromJson(c, name).Ok?
  {
    if name in c {
      var m := c[name].fields;
      forall g ensures Coercible(m, g) {
        assert FieldName(g) in m ==> ValueAt(c, name, FieldName(g)) == m[FieldName(g)];
      }
    }
  }

  /** In a table that validates, each field of each catalog slot, as read from the normalised table, coerces. */
  lemma ValidatedFieldsCoerce(c: map<string, Json>, name: string, g: StyleField)
    requires Validates(c)
    requires name in SlotNames
    ensures CoerceField(g, ValueAt(AlignNormalized(c), name, FieldName(g))).Some?
  {
    var n := AlignNormalized(c);
    assert SlotFromJson(n, name).Ok?;
  }

  /** Different fields have different names. */
  lemma FieldNameInjective(f: StyleField, g: StyleField)
    ensures FieldName(f) == FieldName(g) ==> f == g
  {
  }

  /** A tier that sets one field of one slot. */
  function OneField(slot: string, field: string, v: Json): Json
  {
    JObj(map[slot := JObj(map[field := v])])
  }

  /**
   * A tier that sets one field of one slot to a value that coerces for that
   * field keeps the table valid: the slot gains or changes that field only,
   * every other slot is untouched.
   */
  lemma SetFieldKeepsValid(c: map<string, Json>, slot: string, f: StyleField, v: Json)
    requires Validates(c)
    requires !v.JObj?
    requires CoerceField(f, NormalizedValue(FieldName(f), v)).Some?
    ensures Validates(DeepUpdated(c, OneField(slot, FieldName(f), v).fields))
  {
    OneFieldIsFlat(slot, f, v);
    FlatTierKeepsValid(c, OneField(slot, FieldName(f), v).fields);
  }

  /** A one-field tier whose value coerces is a tier of flat valid records. */
  lemma OneFieldIsFlat(slot: string, f: StyleField, v: Json)
    requires !v.JObj?
    requires CoerceField(f, NormalizedValue(FieldName(f), v)).Some?
    ensures FlatValidTier(OneField(slot, FieldName(f), v).fields)
  {
    var m := map[FieldName(f) := v];
    forall g | FieldName(g) in m
      ensures !m[FieldName(g)].JObj? && CoerceField(g, NormalizedValue(FieldName(g), m[FieldName(g)])).Some?
    {
      FieldNameInjective(f, g);
    }
    assert FlatValidEntry(m);
  }

  /** A tier of flat records: each entry is a mapping, and each field it names holds a plain value that coerces after the align fix-up. */
  predicate FlatValidTier(t: map<string, Json>)
  {
    forall slot :: slot in t ==> t[slot].JObj? && FlatValidEntry(t[slot].fields)
  }

  /** One flat record of such a tier; keys that name no field are free. */
  predicate FlatValidEntry(m: map<string, Json>)
  {
    forall f :: FieldName(f) in m ==> !m[FieldName(f)].JObj? && CoerceField(f, NormalizedValue(FieldName(f), m[FieldName(f)])).Some?
  }

  /** What a field of a slot reads after a flat tier: the tier's value, or the table's, or None. */
  lemma FlatTierField(c: map<string, Json>, t: map<string, Json>, name: string, g: StyleField)
    requires FlatValidTier(t)
    requires name in t
    ensures var v := ValueAt(DeepUpdated(c, t), name, FieldName(g));
            || (FieldName(g) in t[name].fields && v == t[name].fields[FieldName(g)])
            || v == ValueAt(c, name, FieldName(g))
            || v == JNull
  {
    assert FlatValidEntry(t[name].fields);
  }

  /**
   * A tier of flat records whose named fields all coerce keeps the table
   * valid, whatever else its records carry: keys that name no field are
   * ignored by validation.
   */
  lemma FlatTierKeepsValid(c: map<string, Json>, t: map<string, Json>)
    requires Validates(c)
    requires FlatValidTier(t)
    ensures Validates(DeepUpdated(c, t))
  {
    var d := DeepUpdated(c, t);
    var n := AlignNormalized(c);
    var nd := AlignNormalized(d);
    forall name | name in SlotNames
      ensures SlotFromJson(nd, name).Ok?
    {
      assert SlotFromJson(n, name).Ok?;
      if name !in t {
        assert name in nd <==> name in n;
        assert name in nd ==> nd[name] == n[name];
      } else {
        assert FlatValidEntry(t[name].fields);
        forall g ensures CoerceField(g, ValueAt(nd, name, FieldName(g))).Some? {
          AlignNormalizedReads(d, name, FieldName(g));
          AlignNormalizedReads(c, name, FieldName(g));
          ValidatedFieldsCoerce(c, name, g);
          FlatTierField(c, t, name, g);
        }
        AlignNormalizedReads(d, name, "align");
        SlotValidByFields(nd, name);
      }
    }
  }

  /** A flat valid tier given as the extracted-hints tier alone resolves over any valid table. */
  lemma FlatHintTierResolves(base: map<string, Json>, rag: Json)
    requires Validates(base)
    requires rag.JObj? && FlatValidTier(rag.fields)
    ensures ResolveFrom(base, JNull, rag, JNull).Ok?
  {
    if Truthy(rag) {
      FlatTierKeepsValid(base, rag.fields);
      assert CascadeFrom(base, JNull, rag, JNull) == Ok(DeepUpdated(base, rag.fields));
    } else {
      assert CascadeFrom(base, JNull, rag, JNull) == Ok(base);
    }
  }

  // ------------------------------------------------------ worked examples

  /** What the default table resolves to for `global_default`. */
  const DefaultGlobal: FontStyle :=
    FontStyle(Some("SimSun"), Some(12.0), None, None, Some(Justify), Some(1.5), Some("000000"), None, None,
              {Family, Size, LineSpacing, Color, Align})

  /** What the default table resolves to for `heading_1`. */
  const DefaultHeading1: FontStyle :=
    FontStyle(Some("SimHei"), Some(16.0), Some(true), None, Some(Center), Some(1.5), None, None, None,
              {Family, Size, Bold, Align, LineSpacing})

  /** What the default table resolves to for `heading_2`. */
  const DefaultHeading2: FontStyle :=
    FontStyle(Some("SimHei"), Some(14.0), Some(true), None, Some(Left), Some(1.5), None, None, None,
              {Family, Size, Bold, Align, LineSpacing})

  /** What the default table resolves to for `body_text`. */
  const DefaultBodyText: FontStyle :=
    FontStyle(Some("SimSun"), Some(12.0), None, None, Some(Justify), Some(1.5), None, None, None,
              {Family, Size, LineSpacing, Align})

  /** The catalog the default table validates to: `heading_3` and `caption`, which the table omits, get the empty record. */
  const DefaultCatalog: GlobalStyleConfig :=
    GlobalStyleConfig(Some(DefaultGlobal), Some(DefaultHeading1), Some(DefaultHeading2), Some(EmptyStyle),
                      Some(DefaultBodyText), Some(EmptyStyle))

  /** A resolved slot equals `expected` when every field, read from the merged table and coerced, agrees with it. */
  lemma ResolvedStyleIs(base: map<string, Json>, user: Json, rag: Json, preset: Json, slot: string, expected: FontStyle)
    requires NullFree(base)
    requires ResolveFrom(base, user, rag, preset).Ok?
    requires slot in SlotNames
    requires CascadeFrom(base, user, rag, preset).Ok?
    requires var merged := CascadeFrom(base, user, rag, preset).value;
             forall f :: Some(expected.Get(f)) == CoerceField(f, NormalizedValue(FieldName(f), ValueAt(merged, slot, FieldName(f))))
    requires var merged := CascadeFrom(base, user, rag, preset).value;
             slot in merged && merged[slot].JObj? &&
             forall f :: (f in expected.fieldsSet <==> FieldName(f) in merged[slot].fields)
    ensures Attr(ResolveFrom(base, user, rag, preset).value, slot) == Some(expected)
  {
    var got := Attr(ResolveFrom(base, user, rag, preset).value, slot);
    forall f ensures got.Some? && got.value.Get(f) == expected.Get(f) && (f in got.value.fieldsSet <==> f in expected.fieldsSet) {
      ResolvedField(base, user, rag, preset, slot, f);
    }
    assert got.value.fieldsSet == expected.fieldsSet;
    FieldsDetermineStyle(got.value, expected);
  }

  /** The default table's `heading_1` entry. */
  lemma DefaultHeading1Entry()
    ensures "heading_1" in SystemDefault && SystemDefault["heading_1"] ==
              JObj(map["family" := JStr("SimHei"), "size" := JNum(16.0), "bold" := JBool(true),
                       "align" := JStr("CENTER"), "line_spacing" := JNum(1.5)])
  {
  }

  /** The default table's `heading_2` entry. */
  lemma DefaultHeading2Entry()
    ensures "heading_2" in SystemDefault && SystemDefault["heading_2"] ==
              JObj(map["family" := JStr("SimHei"), "size" := JNum(14.0), "bold" := JBool(true),
                       "align" := JStr("LEFT"), "line_spacing" := JNum(1.5)])
  {
  }

  /** The default table's `body_text` entry. */
  lemma DefaultBodyTextEntry()
    ensures "body_text" in SystemDefault && SystemDefault["body_text"] ==
              JObj(map["family" := JStr("SimSun"), "size" := JNum(12.0), "line_spacing" := JNum(1.5),
                       "align" := JStr("JUSTIFY")])
  {
  }

  /** The default table's `global_default` entry. */
  lemma DefaultGlobalEntry()
    ensures "global_default" in SystemDefault && SystemDefault["global_default"] ==
              JObj(map["family" := JStr("SimSun"), "size" := JNum(12.0), "line_spacing" := JNum(1.5),
                       "color" := JStr("000000"), "align" := JStr("JUSTIFY")])
  {
  }

  /** The value a slot entry gives one field: None when the entry does not name it. */
  function EntryValue(h: map<string, Json>, f: StyleField): Json
  {
    if FieldName(f) in h then h[FieldName(f)] else JNull
  }

  /** Validating the slot entry `h` gives `expected`: each field is the entry's value after the align fix-up, coerced, and counts as given exactly when the entry names it. */
  predicate EntryGives(h: map<string, Json>, expected: FontStyle)
  {
    forall f :: Some(expected.Get(f)) == CoerceField(f, NormalizedValue(FieldName(f), EntryValue(h, f)))
             && (f in expected.fieldsSet <==> FieldName(f) in h)
  }

  /** The `global_default` entry gives `DefaultGlobal`. */
  lemma GlobalEntryGives(h: map<string, Json>)
    requires h == map["family" := JStr("SimSun"), "size" := JNum(12.0), "line_spacing" := JNum(1.5),
                      "color" := JStr("000000"), "align" := JStr("JUSTIFY")]
    ensures EntryGives(h, DefaultGlobal)
  {
    UpperOfUpper("JUSTIFY");
    CoerceAlignmentName(Justify);
    forall f ensures Some(DefaultGlobal.Get(f)) == CoerceField(f, NormalizedValue(FieldName(f), EntryValue(h, f)))
                     && (f in DefaultGlobal.fieldsSet <==> FieldName(f) in h)
    {
      match f
      case Family =>
      case Size =>
      case Bold =>
      case Italic =>
      case Align =>
      case LineSpacing =>
      case Color =>
      case SpaceBefore =>
      case SpaceAfter =>
    }
  }

  /** The `heading_1` entry gives `DefaultHeading1`. */
  lemma Heading1EntryGives(h: map<string, Json>)
    requires h == map["family" := JStr("SimHei"), "size" := JNum(16.0), "bold" := JBool(true),
                      "align" := JStr("CENTER"), "line_spacing" := JNum(1.5)]
    ensures EntryGives(h, DefaultHeading1)
  {
    UpperOfUpper("CENTER");
    CoerceAlignmentName(Center);
    forall f ensures Some(DefaultHeading1.Get(f)) == CoerceField(f, NormalizedValue(FieldName(f), EntryValue(h, f)))
                     && (f in DefaultHeading1.fieldsSet <==> FieldName(f) in h)
    {
      match f
      case Family =>
      case Size =>
      case Bold =>
      case Italic =>
      case Align =>
      case LineSpacing =>
      case Color =>
      case SpaceBefore =>
      case SpaceAfter =>
    }
  }

  /** The `heading_2` entry gives `DefaultHeading2`. */
  lemma Heading2EntryGives(h: map<string, Json>)
    requires h == map["family" := JStr("SimHei"), "size" := JNum(14.0), "bold" := JBool(true),
                      "align" := JStr("LEFT"), "line_spacing" := JNum(1.5)]
    ensures EntryGives(h, DefaultHeading2)
  {
    UpperOfUpper("LEFT");
    CoerceAlignmentName(Left);
    forall f ensures Some(DefaultHeading2.Get(f)) == CoerceField(f, NormalizedValue(FieldName(f), EntryValue(h, f)))
                     && (f in DefaultHeading2.fieldsSet <==> FieldName(f) in h)
    {
      match f
      case Family =>
      case Size =>
      case Bold =>
      case Italic =>
      case Align =>
      case LineSpacing =>
      case Color =>
      case SpaceBefore =>
      case SpaceAfter =>
    }
  }

  /** The `body_text` entry gives `DefaultBodyText`. */
  lemma BodyTextEntryGives(h: map<string, Json>)
    requires h == map["family" := JStr("SimSun"), "size" := JNum(12.0), "line_spacing" := JNum(1.5),
                      "align" := JStr("JUSTIFY")]
    ensures EntryGives(h, DefaultBodyText)
  {
    UpperOfUpper("JUSTIFY");
    CoerceAlignmentName(Justify);
    forall f ensures Some(DefaultBodyText.Get(f)) == CoerceField(f, NormalizedValue(FieldName(f), EntryValue(h, f)))
                     && (f in DefaultBodyText.fieldsSet <==> FieldName(f) in h)
    {
      match f
      case Family =>
      case Size =>
      case Bold =>
      case Italic =>
      case Align =>
      case LineSpacing =>
      case Color =>
      case SpaceBefore =>
      case SpaceAfter =>
    }
  }

  /** With every tier falsy the cascade leaves the default table as it is, and the default table validates. */
  lemma FalsyTiersKeepTable(user: Json, rag: Json, preset: Json)
    requires !Truthy(user) && !Truthy(rag) && !Truthy(preset)
    ensures CascadeFrom(SystemDefault, user, rag, preset) == Ok(SystemDefault)
    ensures Resolve(user, rag, preset).Ok?
  {
    DefaultTableValid();
    assert CascadeFrom(SystemDefault, user, rag, preset) == Ok(SystemDefault);
    ResolveOkWhenValid(SystemDefault, user, rag, preset);
  }

  /** With every tier falsy, a slot the default table holds resolves to what its entry gives. */
  lemma DefaultSlotResolves(user: Json, rag: Json, preset: Json, slot: string, expected: FontStyle)
    requires !Truthy(user) && !Truthy(rag) && !Truthy(preset)
    requires slot in SlotNames && slot in SystemDefault && SystemDefault[slot].JObj?
    requires EntryGives(SystemDefault[slot].fields, expected)
    ensures Resolve(user, rag, preset).Ok?
    ensures Attr(Resolve(user, rag, preset).value, slot) == Some(expected)
  {
    FalsyTiersKeepTable(user, rag, preset);
    DefaultTableNullFree();
    var h := SystemDefault[slot].fields;
    forall f
      ensures Some(expected.Get(f)) == CoerceField(f, NormalizedValue(FieldName(f), ValueAt(SystemDefault, slot, FieldName(f))))
      ensures f in expected.fieldsSet <==> FieldName(f) in h
    {
      assert ValueAt(SystemDefault, slot, FieldName(f)) == EntryValue(h, f);
    }
    ResolvedStyleIs(SystemDefault, user, rag, preset, slot, expected);
  }

  /** The default table omits `heading_3` and `caption`. */
  lemma OmittedSlots()
    ensures "heading_3" in SlotNames && "heading_3" !in SystemDefault
    ensures "caption" in SlotNames && "caption" !in SystemDefault
  {
  }

  /** With every tier falsy, a slot the default table omits resolves to the empty record. */
  lemma OmittedSlotResolves(user: Json, rag: Json, preset: Json, slot: string)
    requires !Truthy(user) && !Truthy(rag) && !Truthy(preset)
    requires slot in SlotNames && slot !in SystemDefault
    ensures Resolve(user, rag, preset).Ok?
    ensures Attr(Resolve(user, rag, preset).value, slot) == Some(EmptyStyle)
  {
    FalsyTiersKeepTable(user, rag, preset);
    DefaultTableNullFree();
    var got := Attr(Resolve(user, rag, preset).value, slot);
    forall f ensures got.Some? && got.value.Get(f) == EmptyStyle.Get(f) && (f in got.value.fieldsSet <==> f in EmptyStyle.fieldsSet) {
      ResolvedField(SystemDefault, user, rag, preset, slot, f);
      EmptyStyleHasNoValues(f);
    }
    assert got.value.fieldsSet == EmptyStyle.fieldsSet;
    FieldsDetermineStyle(got.value, EmptyStyle);
  }

  /** With every tier falsy, the four slots the default table holds resolve to its entries. */
  lemma BuiltInSlotsResolve(user: Json, rag: Json, preset: Json)
    requires !Truthy(user) && !Truthy(rag) && !Truthy(preset)
    ensures Resolve(user, rag, preset).Ok?
    ensures Attr(Resolve(user, rag, preset).value, "global_default") == Some(DefaultGlobal)
    ensures Attr(Resolve(user, rag, preset).value, "heading_1") == Some(DefaultHeading1)
    ensures Attr(Resolve(user, rag, preset).value, "heading_2") == Some(DefaultHeading2)
    ensures Attr(Resolve(user, rag, preset).value, "body_text") == Some(DefaultBodyText)
  {
    DefaultGlobalEntry();
    GlobalEntryGives(SystemDefault["global_default"].fields);
    DefaultSlotResolves(user, rag, preset, "global_default", DefaultGlobal);
    DefaultHeading1Entry();
    Heading1EntryGives(SystemDefault["heading_1"].fields);
    DefaultSlotResolves(user, rag, preset, "heading_1", DefaultHeading1);
    DefaultHeading2Entry();
    Heading2EntryGives(SystemDefault["heading_2"].fields);
    DefaultSlotResolves(user, rag, preset, "heading_2", DefaultHeading2);
    DefaultBodyTextEntry();
    BodyTextEntryGives(SystemDefault["body_text"].fields);
    DefaultSlotResolves(user, rag, preset, "body_text", DefaultBodyText);
  }

  /**
   * With every tier falsy (None, or an empty dictionary, list or string, 0 or
   * False), `merge` returns the default catalog: the four built-in slots as
   * the table gives them, and `heading_3` and `caption` empty.
   */
  lemma ResolveNoTiers(user: Json, rag: Json, preset: Json)
    requires !Truthy(user) && !Truthy(rag) && !Truthy(preset)
    ensures Resolve(user, rag, preset) == Ok(DefaultCatalog)
  {
    BuiltInSlotsResolve(user, rag, preset);
    OmittedSlots();
    OmittedSlotResolves(user, rag, preset, "heading_3");
    OmittedSlotResolves(user, rag, preset, "caption");
    CatalogOfSlots(Resolve(user, rag, preset).value, Some(DefaultGlobal), Some(DefaultHeading1), Some(DefaultHeading2),
                   Some(EmptyStyle), Some(DefaultBodyText), Some(EmptyStyle));
  }

  /** Over any table that validates, two tiers each setting a slot's `align` to an accepted spelling keep it valid. */
  lemma TwoAlignTiersKeepValid(c: map<string, Json>, slot: string, spelled: string, hint: string)
    requires Validates(c)
    requires Upper(spelled) in AlignmentNames
    requires Upper(hint) in AlignmentNames
    ensures Validates(DeepUpdated(DeepUpdated(c, OneField(slot, "align", JStr(hint)).fields), OneField(slot, "align", JStr(spelled)).fields))
  {
    SetFieldKeepsValid(c, slot, Align, JStr(hint));
    SetFieldKeepsValid(DeepUpdated(c, OneField(slot, "align", JStr(hint)).fields), slot, Align, JStr(spelled));
  }

  /** Whatever the lower tiers hold, a user tier whose `align` for a slot spells an alignment in any case decides that slot's alignment. */
  lemma UserAlignWins(base: map<string, Json>, user: Json, rag: Json, preset: Json, slot: string, spelled: string, a: Alignment)
    requires NullFree(base)
    requires ResolveFrom(base, user, rag, preset).Ok?
    requires slot in SlotNames
    requires Truthy(user) && user.JObj? && ValueAt(user.fields, slot, "align") == JStr(spelled)
    requires Upper(spelled) == AlignmentName(a)
    ensures Attr(ResolveFrom(base, user, rag, preset).value, slot).Some?
    ensures Attr(ResolveFrom(base, user, rag, preset).value, slot).value.align == Some(a)
  {
    CascadePriority(base, user, rag, preset, slot, "align");
    ResolvedField(base, user, rag, preset, slot, Align);
    CoerceAlignmentName(a);
  }

  /**
   * With no preset, the user's `align` for a slot beats the extracted hint's,
   * and is accepted in any letter case; the hint is one the catalog would
   * accept too.
   */
  lemma UserAlignBeatsHint(base: map<string, Json>, user: Json, rag: Json, preset: Json, slot: string, spelled: string, hint: string, a: Alignment)
    requires Validates(base) && NullFree(base)
    requires user == OneField(slot, "align", JStr(spelled)) && rag == OneField(slot, "align", JStr(hint))
    requires !Truthy(preset)
    requires slot in SlotNames
    requires Upper(spelled) == AlignmentName(a)
    requires Upper(hint) in AlignmentNames
    ensures ResolveFrom(base, user, rag, preset).Ok?
    ensures Attr(ResolveFrom(base, user, rag, preset).value, slot).Some?
    ensures Attr(ResolveFrom(base, user, rag, preset).value, slot).value.align == Some(a)
  {
    AlignTiersResolve(base, user, rag, preset, slot, spelled, hint);
    assert ValueAt(user.fields, slot, "align") == JStr(spelled);
    UserAlignWins(base, user, rag, preset, slot, spelled, a);
  }

  /** Two `align` tiers in accepted spellings over a valid base, with no preset, resolve. */
  lemma AlignTiersResolve(base: map<string, Json>, user: Json, rag: Json, preset: Json, slot: string, spelled: string, hint: string)
    requires Validates(base)
    requires user == OneField(slot, "align", JStr(spelled)) && rag == OneField(slot, "align", JStr(hint))
    requires !Truthy(preset)
    requires Upper(spelled) in AlignmentNames
    requires Upper(hint) in AlignmentNames
    ensures ResolveFrom(base, user, rag, preset).Ok?
  {
    TwoAlignTiersKeepValid(base, slot, spelled, hint);
    assert slot in rag.fields && Truthy(rag);
    assert slot in user.fields && Truthy(user);
    TwoTierCascade(base, user, rag, preset);
    ResolveOkWhenValid(base, user, rag, preset);
  }

  /** With the preset skipped, the cascade is the hints deep-updated into the base, then the user tier into that. */
  lemma TwoTierCascade(base: map<string, Json>, user: Json, rag: Json, preset: Json)
    requires Truthy(user) && user.JObj? && Truthy(rag) && rag.JObj? && !Truthy(preset)
    ensures CascadeFrom(base, user, rag, preset) == Ok(DeepUpdated(DeepUpdated(base, rag.fields), user.fields))
  {
  }

  /** A slot entry with a field that does not coerce makes the whole catalog fail validation. */
  lemma UncoercibleFieldRejected(n: map<string, Json>, slot: string, f: StyleField)
    requires slot in SlotNames
    requires slot in n && n[slot].JObj?
    requires CoerceField(f, ValueAt(n, slot, FieldName(f))).None?
    ensures CatalogFromJson(n).Err?
  {
    assert !Coercible(n[slot].fields, f);
    assert SlotFromJson(n, slot).Err?;
  }

  /** An `align` that names no alignment in any letter case makes the whole merge fail validation, whatever the base table. */
  lemma MisspelledAlignRejected(base: map<string, Json>, user: Json, slot: string, spelled: string)
    requires user == OneField(slot, "align", JStr(spelled))
    requires slot in SlotNames
    requires Upper(spelled) !in AlignmentNames
    ensures ResolveFrom(base, user, JNull, JNull).Err?
  {
    var merged := DeepUpdated(base, user.fields);
    assert slot in user.fields && Truthy(user);
    assert CascadeFrom(base, user, JNull, JNull) == Ok(merged);
    var n := AlignNormalized(merged);
    assert ValueAt(user.fields, slot, "align") == JStr(spelled);
    SetFieldWins(base, user.fields, slot, "align");
    AlignNormalizedReads(merged, slot, "align");
    assert ValueAt(n, slot, "align") == JStr(Upper(spelled));
    assert CoerceField(Align, JStr(Upper(spelled))).None?;
    UncoercibleFieldRejected(n, slot, Align);
  }

  /** A preset that sets one field of one slot to a value that coerces leaves a table that resolves. */
  lemma OneFieldPresetResolves(base: map<string, Json>, preset: Json, slot: string, f: StyleField, v: Json)
    requires Validates(base)
    requires preset == OneField(slot, FieldName(f), v)
    requires v != JNull && !v.JObj?
    requires CoerceField(f, NormalizedValue(FieldName(f), v)).Some?
    ensures CascadeFrom(base, JNull, JNull, preset) == Ok(DeepUpdated(base, preset.fields))
    ensures CascadeFrom(base, JNull, JNull, JNull) == Ok(base)
    ensures ResolveFrom(base, JNull, JNull, preset).Ok? && ResolveFrom(base, JNull, JNull, JNull).Ok?
  {
    assert slot in preset.fields && Truthy(preset);
    SetFieldKeepsValid(base, slot, f, v);
    ResolveOkWhenValid(base, JNull, JNull, preset);
    ResolveOkWhenValid(base, JNull, JNull, JNull);
  }

  /**
   * A preset that sets one field of one slot changes that field and nothing
   * else: every other field of that slot, and whether it counts as given,
   * stays as the base table has it.
   */
  lemma PresetSetsOneField(base: map<string, Json>, preset: Json, slot: string, f: StyleField, v: Json, g: StyleField)
    requires Validates(base) && NullFree(base)
    requires preset == OneField(slot, FieldName(f), v)
    requires slot in SlotNames
    requires v != JNull && !v.JObj?
    requires CoerceField(f, NormalizedValue(FieldName(f), v)).Some?
    ensures ResolveFrom(base, JNull, JNull, preset).Ok? && ResolveFrom(base, JNull, JNull, JNull).Ok?
    ensures var style := Attr(ResolveFrom(base, JNull, JNull, preset).value, slot);
            var before := Attr(ResolveFrom(base, JNull, JNull, JNull).value, slot);
            && style.Some? && before.Some?
            && Some(style.value.Get(f)) == CoerceField(f, NormalizedValue(FieldName(f), v))
            && (g != f ==> style.value.Get(g) == before.value.Get(g))
            && (g in style.value.fieldsSet <==> g == f || g in before.value.fieldsSet)
  {
    OneFieldPresetResolves(base, preset, slot, f, v);
    PresetWritesField(base, preset, slot, f, v);
    if g != f {
      PresetKeepsField(base, preset, slot, f, v, g);
    }
  }

  /** The field the one-field preset sets reads as the preset's value, coerced, and counts as given. */
  lemma PresetWritesField(base: map<string, Json>, preset: Json, slot: string, f: StyleField, v: Json)
    requires Validates(base) && NullFree(base)
    requires preset == OneField(slot, FieldName(f), v)
    requires slot in SlotNames
    requires v != JNull && !v.JObj?
    requires CoerceField(f, NormalizedValue(FieldName(f), v)).Some?
    ensures ResolveFrom(base, JNull, JNull, preset).Ok?
    ensures var style := Attr(ResolveFrom(base, JNull, JNull, preset).value, slot);
            && style.Some?
            && Some(style.value.Get(f)) == CoerceField(f, NormalizedValue(FieldName(f), v))
            && f in style.value.fieldsSet
  {
    OneFieldPresetResolves(base, preset, slot, f, v);
    PresetFieldMerged(base, preset, slot, f, v);
    ResolvedField(base, JNull, JNull, preset, slot, f);
  }

  /** After the cascade, the field the one-field preset sets holds the preset's value. */
  lemma PresetFieldMerged(base: map<string, Json>, preset: Json, slot: string, f: StyleField, v: Json)
    requires Validates(base)
    requires preset == OneField(slot, FieldName(f), v)
    requires v != JNull && !v.JObj?
    requires CoerceField(f, NormalizedValue(FieldName(f), v)).Some?
    ensures CascadeFrom(base, JNull, JNull, preset).Ok?
    ensures ValueAt(CascadeFrom(base, JNull, JNull, preset).value, slot, FieldName(f)) == v
  {
    OneFieldPresetResolves(base, preset, slot, f, v);
    assert ValueAt(preset.fields, slot, FieldName(f)) == v;
    SetFieldWins(base, preset.fields, slot, FieldName(f));
  }

  /** Every other field of the slot reads as it did without the preset, and counts as given exactly when it did. */
  lemma PresetKeepsField(base: map<string, Json>, preset: Json, slot: string, f: StyleField, v: Json, g: StyleField)
    requires Validates(base) && NullFree(base)
    requires preset == OneField(slot, FieldName(f), v)
    requires slot in SlotNames
    requires v != JNull && !v.JObj?
    requires CoerceField(f, NormalizedValue(FieldName(f), v)).Some?
    requires g != f
    ensures ResolveFrom(base, JNull, JNull, preset).Ok? && ResolveFrom(base, JNull, JNull, JNull).Ok?
    ensures var style := Attr(ResolveFrom(base, JNull, JNull, preset).value, slot);
            var before := Attr(ResolveFrom(base, JNull, JNull, JNull).value, slot);
            && style.Some? && before.Some?
            && style.value.Get(g) == before.value.Get(g)
            && (g in style.value.fieldsSet <==> g in before.value.fieldsSet)
  {
    OneFieldPresetResolves(base, preset, slot, f, v);
    ResolvedField(base, JNull, JNull, preset, slot, g);
    ResolvedField(base, JNull, JNull, JNull, slot, g);
    FieldNameInjective(f, g);
    SilentFieldKept(base, preset.fields, slot, FieldName(g));
  }

  /** The record a resize of `before` to `n` points gives. */
  function Resized(before: FontStyle, n: real): FontStyle
  {
    before.(size := Some(n), fieldsSet := before.fieldsSet + {Size})
  }

  /** Field by field, a resizing preset gives the resized record. */
  lemma ResizedField(base: map<string, Json>, preset: Json, slot: string, n: real, before: FontStyle, g: StyleField)
    requires Validates(base) && NullFree(base)
    requires preset == OneField(slot, "size", JNum(n))
    requires slot in SlotNames
    requires ResolveFrom(base, JNull, JNull, JNull).Ok?
    requires Attr(ResolveFrom(base, JNull, JNull, JNull).value, slot) == Some(before)
    ensures ResolveFrom(base, JNull, JNull, preset).Ok?
    ensures var style := Attr(ResolveFrom(base, JNull, JNull, preset).value, slot);
            style.Some? && style.value.Get(g) == Resized(before, n).Get(g) &&
            (g in style.value.fieldsSet <==> g in Resized(before, n).fieldsSet)
  {
    assert FieldName(Size) == "size";
    assert CoerceField(Size, NormalizedValue("size", JNum(n))) == Some(Number(n));
    PresetSetsOneField(base, preset, slot, Size, JNum(n), g);
    ResizedReads(before, n, g);
  }

  /** The resized record reads the new size and every other field as before, and counts the size as given. */
  lemma ResizedReads(before: FontStyle, n: real, g: StyleField)
    ensures Resized(before, n).Get(g) == if g == Size then Number(n) else before.Get(g)
    ensures g in Resized(before, n).fieldsSet <==> g == Size || g in before.fieldsSet
  {
  }

  /** A preset that only resizes one slot gives that slot the new size, marks the size as given, and keeps everything else of the slot. */
  lemma PresetResizes(base: map<string, Json>, preset: Json, slot: string, n: real, before: FontStyle)
    requires Validates(base) && NullFree(base)
    requires preset == OneField(slot, "size", JNum(n))
    requires slot in SlotNames
    requires ResolveFrom(base, JNull, JNull, JNull).Ok?
    requires Attr(ResolveFrom(base, JNull, JNull, JNull).value, slot) == Some(before)
    ensures ResolveFrom(base, JNull, JNull, preset).Ok?
    ensures Attr(ResolveFrom(base, JNull, JNull, preset).value, slot) == Some(Resized(before, n))
  {
    ResizedField(base, preset, slot, n, before, Size);
    var style := Attr(ResolveFrom(base, JNull, JNull, preset).value, slot).value;
    var want := Resized(before, n);
    forall g ensures style.Get(g) == want.Get(g) && (g in style.fieldsSet <==> g in want.fieldsSet) {
      ResizedField(base, preset, slot, n, before, g);
    }
    assert style.fieldsSet == want.fieldsSet;
    FieldsDetermineStyle(style, want);
  }

  /** A preset that only enlarges `heading_1` to 18 points keeps the rest of the default heading: SimHei, bold, centred, 1.5 line spacing. */
  lemma PresetResizesHeading(preset: Json)
    requires preset == OneField("heading_1", "size", JNum(18.0))
    ensures Resolve(JNull, JNull, preset).Ok?
    ensures Attr(Resolve(JNull, JNull, preset).value, "heading_1") == Some(Resized(DefaultHeading1, 18.0))
  {
    DefaultTableValid();
    ResolveNoTiers(JNull, JNull, JNull);
    assert Attr(DefaultCatalog, "heading_1") == Some(DefaultHeading1);
    PresetResizes(SystemDefault, preset, "heading_1", 18.0, DefaultHeading1);
  }

  /** The upper-case forms of the spellings used in the examples. */
  lemma LowerCaseSpellings()
    ensures Upper("center") == "CENTER" && Upper("left") == "LEFT" && Upper("MIDDLE") == "MIDDLE"
  {
    var c := Upper("center");
    assert c[0] == 'C' && c[1] == 'E' && c[2] == 'N' && c[3] == 'T' && c[4] == 'E' && c[5] == 'R';
    var l := Upper("left");
    assert l[0] == 'L' && l[1] == 'E' && l[2] == 'F' && l[3] == 'T';
    var m := Upper("MIDDLE");
    assert m[0] == 'M' && m[1] == 'I' && m[2] == 'D' && m[3] == 'D' && m[4] == 'L' && m[5] == 'E';
  }

  /** "center" upper-cases to the name of Center, and "left" to an accepted name. */
  lemma CenterAndLeftSpellings()
    ensures Upper("center") == AlignmentName(Center)
    ensures Upper("left") in AlignmentNames
  {
    LowerCaseSpellings();
  }

  /** The user's lower-case "center" for the body text beats a "left" hint extracted from the rules text. */
  lemma UserCenterBeatsLeftHint(user: Json, rag: Json)
    requires user == OneField("body_text", "align", JStr("center"))
    requires rag == OneField("body_text", "align", JStr("left"))
    ensures Resolve(user, rag, JNull).Ok?
    ensures Attr(Resolve(user, rag, JNull).value, "body_text").Some?
    ensures Attr(Resolve(user, rag, JNull).value, "body_text").value.align == Some(Center)
  {
    CenterAndLeftSpellings();
    DefaultTableValid();
    UserAlignBeatsHint(SystemDefault, user, rag, JNull, "body_text", "center", "left", Center);
  }

  /** A body-text `align` of "MIDDLE" names no alignment, so the whole merge fails validation. */
  lemma MiddleAlignRejected(user: Json)
    requires user == OneField("body_text", "align", JStr("MIDDLE"))
    ensures Resolve(user, JNull, JNull).Err?
  {
    LowerCaseSpellings();
    MisspelledAlignRejected(SystemDefault, user, "body_text", "MIDDLE");
  }
}
