/**
 * The site-creation payload (`site_data`) built from one site row, and the pass that
 * replaces top-level non-finite floats by `None` so that the payload is valid JSON.
 */
module SiteData {
  import opened Sheet

  /** The keys of `site_data`. */
  datatype SiteKey =
    | Name | Address | CountryCode | Latlng | Timezone
    | ContactName | ContactEmail | ContactPhone | SiteType

  /** The JSON field name each key is sent under. */
  function FieldName(k: SiteKey): string
  {
    match k
    case Name => "name"
    case Address => "address"
    case CountryCode => "country_code"
    case Latlng => "latlng"
    case Timezone => "timezone"
    case ContactName => "contact_name"
    case ContactEmail => "contact_email"
    case ContactPhone => "contact_phone"
    case SiteType => "site_type"
  }

  /** Distinct keys are sent under distinct JSON field names. */
  lemma FieldNamesDistinct(k1: SiteKey, k2: SiteKey)
    ensures FieldName(k1) == FieldName(k2) <==> k1 == k2
  {
    if k1 != k2 {
      var n1, n2 := FieldName(k1), FieldName(k2);
      assert |n1| != |n2| || n1[0] != n2[0] || n1[|n1| - 1] != n2[|n2| - 1] || n1[8] != n2[8];
    }
  }

  /** The keys of `site_data`, in the order the dictionary is built and iterated. */
  const SiteKeys: seq<SiteKey> :=
    [Name, Address, CountryCode, Latlng, Timezone, ContactName, ContactEmail, ContactPhone, SiteType]

  /** Every key appears in the iteration order. */
  lemma AllKeysListed()
    ensures forall k: SiteKey :: k in SiteKeys
  {
    forall k: SiteKey ensures k in SiteKeys {
      match k
      case Name => assert SiteKeys[0] == k;
      case Address => assert SiteKeys[1] == k;
      case CountryCode => assert SiteKeys[2] == k;
      case Latlng => assert SiteKeys[3] == k;
      case Timezone => assert SiteKeys[4] == k;
      case ContactName => assert SiteKeys[5] == k;
      case ContactEmail => assert SiteKeys[6] == k;
      case ContactPhone => assert SiteKeys[7] == k;
      case SiteType => assert SiteKeys[8] == k;
    }
  }

  /** The keys copied straight from one cell, with the column each one comes from. */
  const PlainFields: seq<(SiteKey, nat)> :=
    [(Name, 0), (Address, 1), (CountryCode, 2), (Timezone, 5),
     (ContactName, 6), (ContactEmail, 7), (ContactPhone, 8), (SiteType, 9)]

  /** `site_data` as first built: ten fixed columns, latitude and longitude nested under `latlng`. */
  function RawSiteData(row: Row): map<SiteKey, Value>
    requires |row| >= 10
  {
    map[Name := Of(row[0]), Address := Of(row[1]), CountryCode := Of(row[2]),
        Latlng := LatLng(Of(row[3]), Of(row[4])), Timezone := Of(row[5]),
        ContactName := Of(row[6]), ContactEmail := Of(row[7]),
        ContactPhone := Of(row[8]), SiteType := Of(row[9])]
  }

  /** The freshly built `site_data` has every key. */
  lemma RawSiteDataKeys(row: Row)
    requires |row| >= 10
    ensures forall k: SiteKey :: k in RawSiteData(row)
  {
    forall k: SiteKey ensures k in RawSiteData(row) {
      match k
      case Name => case Address => case CountryCode => case Latlng => case Timezone =>
      case ContactName => case ContactEmail => case ContactPhone => case SiteType =>
    }
  }

  /** A top-level value that is a NaN or infinite float. */
  predicate IsNonFiniteValue(v: Value)
  {
    v.Of? && IsNonFiniteFloat(v.c)
  }

  /** What the clean-up pass does to one top-level value. */
  function NormaliseValue(v: Value): Value
  {
    if IsNonFiniteValue(v) then Null else v
  }

  /** A dictionary after the clean-up pass: every top-level value normalised, keys unchanged. */
  function Normalised(data: map<SiteKey, Value>): map<SiteKey, Value>
  {
    map k | k in data :: NormaliseValue(data[k])
  }

  /**
   * The clean-up loop over `site_data`, in the dictionary's own key order: a top-level
   * value that is a NaN or infinite float becomes `None`; every other value, including the
   * nested `latlng`, is left as it is.
   */
  method NormaliseSiteData(data: map<SiteKey, Value>) returns (out: map<SiteKey, Value>)
    requires forall k: SiteKey :: k in data
    ensures out == Normalised(data)
    ensures out.Keys == data.Keys
    ensures forall k :: k in out ==> !IsNonFiniteValue(out[k])
  {
    out := data;
    for i := 0 to |SiteKeys|
      invariant out.Keys == data.Keys
      invariant forall k :: k in out ==>
                  out[k] == (if k in SiteKeys[..i] then NormaliseValue(data[k]) else data[k])
    {
      var key := SiteKeys[i];
      assert SiteKeys[..i + 1] == SiteKeys[..i] + [key];
      if IsNonFiniteValue(out[key]) {
        out := out[key := Null];
      }
    }
    AllKeysListed();
    assert SiteKeys[..|SiteKeys|] == SiteKeys;
  }

  /** A top-level cell after the clean-up pass: `None` for a NaN or infinite float. */
  function Clean(c: Cell): Value
  {
    if IsNonFiniteFloat(c) then Null else Of(c)
  }

  /** `site_data` as sent: the freshly built dictionary of the row after the clean-up pass. */
  function SitePayload(row: Row): map<SiteKey, Value>
    requires |row| >= 10
  {
    map[Name := Clean(row[0]), Address := Clean(row[1]), CountryCode := Clean(row[2]),
        Latlng := LatLng(Of(row[3]), Of(row[4])), Timezone := Clean(row[5]),
        ContactName := Clean(row[6]), ContactEmail := Clean(row[7]),
        ContactPhone := Clean(row[8]), SiteType := Clean(row[9])]
  }

  /** Cleaning the freshly built `site_data` gives the payload of the row. */
  lemma CleanedRawIsPayload(row: Row)
    requires |row| >= 10
    ensures Normalised(RawSiteData(row)) == SitePayload(row)
  {
    var cleaned, payload := Normalised(RawSiteData(row)), SitePayload(row);
    RawSiteDataKeys(row);
    forall k: SiteKey ensures k in cleaned && k in payload && cleaned[k] == payload[k] {
      match k
      case Name => case Address => case CountryCode => case Latlng => case Timezone =>
      case ContactName => case ContactEmail => case ContactPhone => case SiteType =>
    }
    assert cleaned.Keys == payload.Keys;
  }

  /**
   * The payload of a row, field by field: every key is present; each plain key holds its
   * cell, or `None` when that cell is a NaN or infinite float; `latlng` holds latitude and
   * longitude as they are, never inspected; and no top-level value is a NaN or infinite
   * float.
   */
  lemma SitePayloadFields(row: Row)
    requires |row| >= 10
    ensures forall k: SiteKey :: k in SitePayload(row)
    ensures forall i :: 0 <= i < |PlainFields| ==>
              SitePayload(row)[PlainFields[i].0] ==
                (if IsNonFiniteFloat(row[PlainFields[i].1]) then Null else Of(row[PlainFields[i].1]))
    ensures SitePayload(row)[Latlng] == LatLng(Of(row[3]), Of(row[4]))
    ensures forall k :: k in SitePayload(row) ==> !IsNonFiniteValue(SitePayload(row)[k])
  {
    var payload := SitePayload(row);
    forall k: SiteKey ensures k in payload {
      match k
      case Name => case Address => case CountryCode => case Latlng => case Timezone =>
      case ContactName => case ContactEmail => case ContactPhone => case SiteType =>
    }
    forall i | 0 <= i < |PlainFields|
      ensures payload[PlainFields[i].0] == Clean(row[PlainFields[i].1])
    {
      if i == 0 { } else if i == 1 { } else if i == 2 { } else if i == 3 { }
      else if i == 4 { } else if i == 5 { } else if i == 6 { } else { }
    }
  }

  /** A cleaned top-level value encodes unless its cell is a date or time. */
  lemma CleanEncodable(c: Cell)
    ensures EncodableValue(Clean(c)) <==> !c.DateTime?
  {
  }

  /**
   * When the payload of a row encodes: no plain column holds a date or time, and latitude
   * and longitude are both text or finite numbers. An empty latitude or longitude, which
   * the clean-up leaves in place, makes the encoding fail.
   */
  lemma SitePayloadEncodable(row: Row)
    requires |row| >= 10
    ensures Encodable(SitePayload(row)) <==>
              && (forall i :: 0 <= i < |PlainFields| ==> !row[PlainFields[i].1].DateTime?)
              && EncodableCell(row[3]) && EncodableCell(row[4])
  {
    var payload := SitePayload(row);
    SitePayloadFields(row);
    if Encodable(payload) {
      forall i | 0 <= i < |PlainFields| ensures !row[PlainFields[i].1].DateTime? {
        CleanEncodable(row[PlainFields[i].1]);
      }
      assert EncodableValue(payload[Latlng]);
      assert EncodableValue(Of(row[3])) && EncodableValue(Of(row[4]));
    }
    if (forall i :: 0 <= i < |PlainFields| ==> !row[PlainFields[i].1].DateTime?)
       && EncodableCell(row[3]) && EncodableCell(row[4])
    {
      forall k | k in payload ensures EncodableValue(payload[k]) {
        match k
        case Name => assert PlainFields[0] == (Name, 0); CleanEncodable(row[0]);
        case Address => assert PlainFields[1] == (Address, 1); CleanEncodable(row[1]);
        case CountryCode => assert PlainFields[2] == (CountryCode, 2); CleanEncodable(row[2]);
        case Latlng => assert EncodableValue(Of(row[3])) && EncodableValue(Of(row[4]));
        case Timezone => assert PlainFields[3] == (Timezone, 5); CleanEncodable(row[5]);
        case ContactName => assert PlainFields[4] == (ContactName, 6); CleanEncodable(row[6]);
        case ContactEmail => assert PlainFields[5] == (ContactEmail, 7); CleanEncodable(row[7]);
        case ContactPhone => assert PlainFields[6] == (ContactPhone, 8); CleanEncodable(row[8]);
        case SiteType => assert PlainFields[7] == (SiteType, 9); CleanEncodable(row[9]);
      }
    }
  }

  /** A row with an empty latitude cell: its payload, as the script builds it, does not encode. */
  lemma BlankLatitudeNotEncodable(row: Row)
    requires |row| >= 10 && row[3].Blank?
    ensures !Encodable(SitePayload(row))
  {
    SitePayloadEncodable(row);
  }

  /** The clean-up applied at every depth: a NaN or infinite float inside `latlng` becomes `None` too. */
  function CleanDeep(v: Value): Value
  {
    match v
    case Null => Null
    case Of(c) => Clean(c)
    case LatLng(lat, lng) => LatLng(CleanDeep(lat), CleanDeep(lng))
  }

  /** The payload the clean-up is meant to produce: every value cleaned at every depth. */
  function IntendedPayload(row: Row): map<SiteKey, Value>
    requires |row| >= 10
  {
    map k | k in RawSiteData(row) :: CleanDeep(RawSiteData(row)[k])
  }

  /**
   * The intended payload differs from the one the script sends only inside `latlng`, and it
   * encodes for every row that holds no date or time in its ten site columns.
   */
  lemma IntendedPayloadEncodable(row: Row)
    requires |row| >= 10
    ensures forall k :: k in IntendedPayload(row) <==> k in SitePayload(row)
    ensures forall k :: k in SitePayload(row) && k != Latlng ==> IntendedPayload(row)[k] == SitePayload(row)[k]
    ensures IntendedPayload(row)[Latlng] == LatLng(Clean(row[3]), Clean(row[4]))
    ensures (forall j :: 0 <= j < 10 ==> !row[j].DateTime?) ==> Encodable(IntendedPayload(row))
  {
    var intended, payload := IntendedPayload(row), SitePayload(row);
    RawSiteDataKeys(row);
    SitePayloadFields(row);
    forall k: SiteKey ensures k in intended && (k != Latlng ==> intended[k] == payload[k]) {
      match k
      case Name => case Address => case CountryCode => case Timezone =>
      case ContactName => case ContactEmail => case ContactPhone => case SiteType =>
      case Latlng =>
        assert intended[Latlng] == CleanDeep(LatLng(Of(row[3]), Of(row[4])));
    }
    assert CleanDeep(Of(row[3])) == Clean(row[3]) && CleanDeep(Of(row[4])) == Clean(row[4]);
    assert intended[Latlng] == CleanDeep(LatLng(Of(row[3]), Of(row[4])));
    if forall j :: 0 <= j < 10 ==> !row[j].DateTime? {
      forall k | k in intended ensures EncodableValue(intended[k]) {
        match k
        case Name => CleanEncodable(row[0]);
        case Address => CleanEncodable(row[1]);
        case CountryCode => CleanEncodable(row[2]);
        case Latlng => CleanEncodable(row[3]); CleanEncodable(row[4]);
        case Timezone => CleanEncodable(row[5]);
        case ContactName => CleanEncodable(row[6]);
        case ContactEmail => CleanEncodable(row[7]);
        case ContactPhone => CleanEncodable(row[8]);
        case SiteType => CleanEncodable(row[9]);
      }
    }
  }
}
