/**
  * validate_weather_data (weather_app.py:366-400): the structural check of an
  * OpenWeatherMap response that display_weather runs before showing it.
  */
module Validation {
  import opened Wrappers
  import opened PyJson

  /** Why a response is rejected; each reason carries what the message lists. */
  datatype Reason =
    | NoData
    | MissingSections(descriptions: seq<string>)
    | MissingMainFields(fields: seq<string>)
    | NoWeatherState

  /**
    * The outcome of validate_weather_data: the `(True, ...)` or `(False, reason)` pair
    * it returns, or an exception it lets escape (a value that does not support `in`,
    * `.get` or `len`).
    */
  datatype Verdict = Valid | Invalid(reason: Reason) | Raises

  /** The keys of `required_fields`, in dictionary order. */
  const SectionKeys: seq<string> := ["name", "main", "weather", "sys"]

  /** `required_fields[key]`: the Korean description reported for a missing section. */
  function SectionDescription(key: string): string
    requires key in SectionKeys
  {
    match key
    case "name" => "도시명"
    case "main" => "기본 날씨 정보"
    case "weather" => "날씨 상태"
    case "sys" => "시스템 정보"
  }

  /** The descriptions of the given section keys, in the same order. */
  function Descriptions(keys: seq<string>): (r: seq<string>)
    requires forall k :: k in keys ==> k in SectionKeys
    ensures |r| == |keys|
    ensures forall i :: 0 <= i < |keys| ==> r[i] == SectionDescription(keys[i])
    decreases |keys|
  {
    if keys == [] then [] else Descriptions(keys[..|keys| - 1]) + [SectionDescription(keys[|keys| - 1])]
  }

  /** `main_required`: the readings the `main` section must hold. */
  const MainKeys: seq<string> := ["temp", "humidity", "pressure"]

  /** validate_weather_data, check by check in the order the code makes them. */
  function Validate(data: Json): (v: Verdict)
    ensures v == Invalid(NoData) <==> !Truthy(data)
    ensures Truthy(data) && SupportsIn(data) && (exists k :: k in SectionKeys && !Has(data, k)) ==>
      v.Invalid? && v.reason.MissingSections?
    ensures v.Invalid? && v.reason.MissingSections? ==>
      v.reason.descriptions != [] && |v.reason.descriptions| <= |SectionKeys|
    ensures v.Invalid? && v.reason.MissingMainFields? ==>
      v.reason.fields != [] && forall f :: f in v.reason.fields ==> f in MainKeys
    ensures v.Valid? ==> data.JObj? && forall k :: k in SectionKeys ==> k in data.fields
  {
    if !Truthy(data) then Invalid(NoData)
    else if !SupportsIn(data) then Raises
    else
      var missing := MissingKeys(data, SectionKeys);
      MissingKeysBound(data, SectionKeys);
      if missing != [] then Invalid(MissingSections(Descriptions(missing)))
      else if !data.JObj? then Raises
      else
        assert "main" in SectionKeys && "weather" in SectionKeys;
        var main := data.fields["main"];
        if !SupportsIn(main) then Raises
        else
          var mainMissing := MissingKeys(main, MainKeys);
          if mainMissing != [] then Invalid(MissingMainFields(mainMissing))
          else if !Truthy(data.fields["weather"]) then Invalid(NoWeatherState)
          else if IsNumber(data.fields["weather"]) then Raises
          else Valid
  }

  /** validate_weather_data step by step, as the code runs it. */
  method ValidateWeatherData(data: Json) returns (v: Verdict)
    ensures v == Validate(data)
  {
    if !Truthy(data) {
      return Invalid(NoData);
    }
    var scanned := ScanSections(data);
    if scanned.None? {
      return Raises;
    }
    var missing := scanned.value;
    if missing != [] {
      return Invalid(MissingSections(missing));
    }
    if !data.JObj? {
      return Raises;
    }
    var main := data.fields["main"];
    if !SupportsIn(main) {
      return Raises;
    }
    var mainMissing := MissingKeys(main, MainKeys);
    if mainMissing != [] {
      return Invalid(MissingMainFields(mainMissing));
    }
    var weather := data.fields["weather"];
    if !Truthy(weather) {
      return Invalid(NoWeatherState);
    }
    if IsNumber(weather) {
      return Raises;
    }
    return Valid;
  }

  /**
    * The loop over `required_fields`: the descriptions of the absent sections, in
    * dictionary order, or None when `field not in data` raises.
    */
  method ScanSections(data: Json) returns (r: Option<seq<string>>)
    ensures r.None? <==> !SupportsIn(data)
    ensures r.Some? ==> r.value == Descriptions(MissingKeys(data, SectionKeys))
  {
    // `field not in data` raises on the first iteration or never.
    if !SupportsIn(data) {
      return None;
    }
    var missing := DescribeAbsent(data, SectionKeys);
    return Some(missing);
  }

  /** The loop body for each of `keys` in turn: append the description of each absent one. */
  method DescribeAbsent(data: Json, keys: seq<string>) returns (missing: seq<string>)
    requires SupportsIn(data)
    requires forall k :: k in keys ==> k in SectionKeys
    ensures missing == Descriptions(MissingKeys(data, keys))
  {
    missing := [];
    var i := 0;
    while i < |keys|
      invariant 0 <= i <= |keys|
      invariant missing == Descriptions(MissingKeys(data, keys[..i]))
    {
      var key := keys[i];
      ScanStep(data, keys, i);
      if !Has(data, key) {
        missing := missing + [SectionDescription(key)];
      }
      i := i + 1;
    }
    assert keys[..i] == keys;
  }

  /** One more key scanned: its description is appended exactly when the key is absent. */
  lemma ScanStep(data: Json, keys: seq<string>, i: nat)
    requires SupportsIn(data) && i < |keys|
    requires forall k :: k in keys ==> k in SectionKeys
    ensures keys[i] in SectionKeys
    ensures Descriptions(MissingKeys(data, keys[..i + 1])) ==
      Descriptions(MissingKeys(data, keys[..i])) +
      (if Has(data, keys[i]) then [] else [SectionDescription(keys[i])])
  {
    var prefix, key := keys[..i], keys[i];
    assert keys[..i + 1] == prefix + [key];
    assert (prefix + [key])[..i] == prefix;
    assert forall k :: k in prefix ==> k in keys;
    var m := MissingKeys(data, prefix);
    if !Has(data, key) {
      assert MissingKeys(data, keys[..i + 1]) == m + [key];
      assert (m + [key])[..|m|] == m;
    }
  }

  /** `', '.join(parts)`. */
  function Join(parts: seq<string>): string
  {
    if parts == [] then ""
    else if |parts| == 1 then parts[0]
    else parts[0] + ", " + Join(parts[1..])
  }

  /** The message half of the returned pair. */
  function Message(v: Verdict): (r: string)
    requires !v.Raises?
    ensures v.Valid? <==> r == "데이터 검증 완료"
  {
    match v
    case Valid => "데이터 검증 완료"
    case Invalid(NoData) => "날씨 데이터가 없습니다."
    case Invalid(MissingSections(descriptions)) => "누락된 필수 정보: " + Join(descriptions)
    case Invalid(MissingMainFields(fields)) => "기본 날씨 정보 누락: " + Join(fields)
    case Invalid(NoWeatherState) => "날씨 상태 정보가 없습니다."
  }

  lemma NoneMissing(j: Json, keys: seq<string>)
    requires SupportsIn(j) && forall k :: k in keys ==> Has(j, k)
    ensures MissingKeys(j, keys) == []
  {
  }

  /** A response passes exactly when it is a dict with all four sections, a complete `main` and a non-empty `weather`. */
  lemma ValidExactly(data: Json)
    ensures Validate(data) == Valid <==>
      data.JObj? &&
      (forall k :: k in SectionKeys ==> k in data.fields) &&
      SupportsIn(data.fields["main"]) &&
      (forall k :: k in MainKeys ==> Has(data.fields["main"], k)) &&
      Truthy(data.fields["weather"]) && !IsNumber(data.fields["weather"])
  {
    if data.JObj? && (forall k :: k in SectionKeys ==> k in data.fields) {
      NoneMissing(data, SectionKeys);
      if SupportsIn(data.fields["main"]) && (forall k :: k in MainKeys ==> Has(data.fields["main"], k)) {
        NoneMissing(data.fields["main"], MainKeys);
      }
    }
  }

  /**
    * The top-level sections are checked first: when one is absent the verdict names,
    * in dictionary order, the description of every absent section and of no other,
    * whatever the sections that are present contain.
    */
  lemma MissingSectionsReported(data: Json)
    requires Truthy(data) && SupportsIn(data)
    requires exists k :: k in SectionKeys && !Has(data, k)
    ensures Validate(data).Invalid? && Validate(data).reason.MissingSections?
    ensures forall k :: k in SectionKeys ==>
      (SectionDescription(k) in Validate(data).reason.descriptions <==> !Has(data, k))
    ensures IsSubsequence(Validate(data).reason.descriptions, Descriptions(SectionKeys))
  {
    var missing := MissingKeys(data, SectionKeys);
    var k :| k in SectionKeys && !Has(data, k);
    assert k in missing;
    assert Validate(data) == Invalid(MissingSections(Descriptions(missing)));
    forall k | k in SectionKeys
      ensures SectionDescription(k) in Descriptions(missing) <==> k in missing
    {
      DescriptionIn(missing, k);
    }
    DescriptionsKeepOrder(missing, SectionKeys);
  }

  /** Distinct sections have distinct descriptions (their lengths already differ). */
  lemma DescriptionsDistinct(a: string, b: string)
    requires a in SectionKeys && b in SectionKeys && a != b
    ensures SectionDescription(a) != SectionDescription(b)
  {
    assert a == "name" || a == "main" || a == "weather" || a == "sys";
    assert b == "name" || b == "main" || b == "weather" || b == "sys";
    assert |SectionDescription(a)| != |SectionDescription(b)|;
  }

  /** A description occurs in the list exactly when its section key does. */
  lemma DescriptionIn(keys: seq<string>, k: string)
    requires forall x :: x in keys ==> x in SectionKeys
    requires k in SectionKeys
    ensures SectionDescription(k) in Descriptions(keys) <==> k in keys
  {
    var d := Descriptions(keys);
    if SectionDescription(k) in d {
      var i :| 0 <= i < |d| && d[i] == SectionDescription(k);
      assert keys[i] in keys;
      if keys[i] != k {
        DescriptionsDistinct(keys[i], k);
      }
    }
    if k in keys {
      var i :| 0 <= i < |keys| && keys[i] == k;
      assert d[i] == SectionDescription(k);
    }
  }

  lemma {:induction false} DescriptionsKeepOrder(a: seq<string>, b: seq<string>)
    requires forall k :: k in a ==> k in SectionKeys
    requires forall k :: k in b ==> k in SectionKeys
    requires IsSubsequence(a, b)
    ensures IsSubsequence(Descriptions(a), Descriptions(b))
    decreases |b|
  {
    if a != [] {
      var a', b' := a[..|a| - 1], b[..|b| - 1];
      assert forall k :: k in a' ==> k in a;
      assert forall k :: k in b' ==> k in b;
      assert Descriptions(a)[..|a| - 1] == Descriptions(a');
      assert Descriptions(b)[..|b| - 1] == Descriptions(b');
      if a[|a| - 1] == b[|b| - 1] {
        DescriptionsKeepOrder(a', b');
      } else if Descriptions(a)[|a| - 1] == Descriptions(b)[|b| - 1] {
        SubsequenceDropLast(a, b');
        DescriptionsKeepOrder(a', b');
      } else {
        DescriptionsKeepOrder(a, b');
      }
    }
  }

  /**
    * Once every section is present in a dict whose `main` answers `in`, the readings
    * of `main` are checked next: the verdict lists the absent ones, in the order
    * temp, humidity, pressure, and is a main-field rejection exactly when one is absent.
    */
  lemma MainFieldsReported(data: Json)
    requires data.JObj? && forall k :: k in SectionKeys ==> k in data.fields
    requires SupportsIn(data.fields["main"])
    ensures var v := Validate(data);
      (v.Invalid? && v.reason.MissingMainFields?) <==>
        exists k :: k in MainKeys && !Has(data.fields["main"], k)
    ensures var v := Validate(data);
      v.Invalid? && v.reason.MissingMainFields? ==>
        (forall k :: k in v.reason.fields <==> k in MainKeys && !Has(data.fields["main"], k)) &&
        IsSubsequence(v.reason.fields, MainKeys)
  {
    assert Truthy(data) by {
      assert "name" in data.fields;
    }
    NoneMissing(data, SectionKeys);
    var mainMissing := MissingKeys(data.fields["main"], MainKeys);
    if exists k :: k in MainKeys && !Has(data.fields["main"], k) {
      var k :| k in MainKeys && !Has(data.fields["main"], k);
      assert k in mainMissing;
      assert Validate(data) == Invalid(MissingMainFields(mainMissing));
    } else {
      NoneMissing(data.fields["main"], MainKeys);
    }
  }
}
