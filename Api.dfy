/**
 * The shared HTTP client's request interceptor: when an admin id is stored,
 * every outgoing request carries it, as a query parameter on a GET, as a
 * form entry on a FormData body and as a field on any other body.
 */
module Api {
  import opened Common

  /** One entry of a FormData body; a file value is represented by its text. */
  datatype FormEntry = FormEntry(key: string, value: string)

  /** A FormData object: an ordered list of entries that `append` extends in place. */
  class FormData {
    var entries: seq<FormEntry>

    constructor (initial: seq<FormEntry>)
      ensures entries == initial
    {
      entries := initial;
    }

    method Append(key: string, value: string)
      modifies this
      ensures entries == old(entries) + [FormEntry(key, value)]
    {
      entries := entries + [FormEntry(key, value)];
    }
  }

  /** A request body: none, a plain object of fields, or a FormData object. */
  datatype Body = NoBody | Fields(fields: map<string, string>) | Form(form: FormData)

  /** The request config the interceptor receives and returns. */
  class RequestConfig {
    var httpMethod: string
    var url: string
    var params: Option<map<string, string>>
    var data: Body

    constructor (httpMethod: string, url: string, params: Option<map<string, string>>, data: Body)
      ensures this.httpMethod == httpMethod && this.url == url
      ensures this.params == params && this.data == data
    {
      this.httpMethod := httpMethod;
      this.url := url;
      this.params := params;
      this.data := data;
    }
  }

  const AdminKey := "adminId"

  /** A stored admin id counts only when present and not the empty string. */
  predicate HasAdmin(adminId: Option<string>)
  {
    adminId.Some? && adminId.value != ""
  }

  /** Letters come out as lower-case letters, nothing else becomes one, and only capitals change, by one case offset. */
  function LowerChar(c: char): (r: char)
    ensures ('a' <= r <= 'z') <==> ('a' <= c <= 'z' || 'A' <= c <= 'Z')
    ensures r != c <==> 'A' <= c <= 'Z'
    ensures r != c ==> r as int - c as int == 32
  {
    if 'A' <= c <= 'Z' then (c as int + 32) as char else c
  }

  /** ASCII lower-casing, character by character. */
  function LowerCase(s: string): (r: string)
    ensures |r| == |s|
    ensures forall i :: 0 <= i < |s| ==> r[i] == LowerChar(s[i])
  {
    seq(|s|, i requires 0 <= i < |s| => LowerChar(s[i]))
  }

  /** The method compares equal to "get" once lower-cased. */
  predicate IsGet(httpMethod: string)
  {
    LowerCase(httpMethod) == "get"
  }

  /** A method is a GET exactly when it spells "get" in any mix of cases. */
  lemma {:induction false} IsGetAnyCase(httpMethod: string)
    ensures IsGet(httpMethod) <==>
      && |httpMethod| == 3
      && (httpMethod[0] == 'g' || httpMethod[0] == 'G')
      && (httpMethod[1] == 'e' || httpMethod[1] == 'E')
      && (httpMethod[2] == 't' || httpMethod[2] == 'T')
  {
    var lower := LowerCase(httpMethod);
    if |httpMethod| == 3 {
      if lower == "get" {
        assert lower[0] == 'g' && lower[1] == 'e' && lower[2] == 't';
      } else {
        assert lower[0] != 'g' || lower[1] != 'e' || lower[2] != 't';
      }
    }
  }

  /** The params spread with the admin id added, replacing any earlier value. */
  function WithAdmin(params: Option<map<string, string>>, adminId: string): (r: map<string, string>)
    ensures AdminKey in r && r[AdminKey] == adminId
    ensures params.Some? ==> r.Keys == params.value.Keys + {AdminKey}
    ensures params.Some? ==> forall key :: key in params.value && key != AdminKey ==> r[key] == params.value[key]
    ensures params.None? ==> r == map[AdminKey := adminId]
  {
    if params.Some? then params.value[AdminKey := adminId] else map[AdminKey := adminId]
  }

  /** The JSON body spread with the admin id added; a missing body spreads as no fields. */
  function BodyWithAdmin(data: Body, adminId: string): (r: map<string, string>)
    requires !data.Form?
    ensures AdminKey in r && r[AdminKey] == adminId
    ensures data.Fields? ==> r.Keys == data.fields.Keys + {AdminKey}
    ensures data.Fields? ==> forall key :: key in data.fields && key != AdminKey ==> r[key] == data.fields[key]
    ensures data.NoBody? ==> r == map[AdminKey := adminId]
  {
    if data.Fields? then data.fields[AdminKey := adminId] else map[AdminKey := adminId]
  }

  /** Some entry carries this key. */
  predicate HasKey(entries: seq<FormEntry>, key: string)
  {
    exists i :: 0 <= i < |entries| && entries[i].key == key
  }

  /**
   * The form's entries once the admin id is appended unless an entry already
   * carries the key: the old entries are kept in order, the key is present
   * afterwards, and one entry, the admin id, is added exactly when the key
   * was missing.
   */
  function AppendOnce(entries: seq<FormEntry>, adminId: string): (r: seq<FormEntry>)
    ensures HasKey(r, AdminKey)
    ensures |entries| <= |r| <= |entries| + 1 && r[..|entries|] == entries
    ensures |r| == |entries| + 1 <==> !HasKey(entries, AdminKey)
    ensures |r| == |entries| + 1 ==> r[|entries|] == FormEntry(AdminKey, adminId)
  {
    if HasKey(entries, AdminKey) then entries
    else
      var r := entries + [FormEntry(AdminKey, adminId)];
      assert r[|entries|].key == AdminKey;
      r
  }

  /** A second pass of the interceptor adds nothing to a form it already decorated. */
  lemma {:induction false} AppendOnceIdempotent(entries: seq<FormEntry>, adminId: string, other: string)
    ensures AppendOnce(AppendOnce(entries, adminId), other) == AppendOnce(entries, adminId)
  {
    var once := AppendOnce(entries, adminId);
    assert once[..|once|] == once;
  }

  /** The entry scan: stop at the first entry with the key. */
  method FormHasKey(form: FormData, key: string) returns (found: bool)
    ensures found <==> HasKey(form.entries, key)
  {
    found := false;
    var i := 0;
    while i < |form.entries|
      invariant 0 <= i <= |form.entries|
      invariant !found
      invariant forall j :: 0 <= j < i ==> form.entries[j].key != key
    {
      if form.entries[i].key == key {
        found := true;
        break;
      }
      i := i + 1;
    }
  }

  /** The FormData object a body holds, if any: what the interceptor may append to. */
  function FormOf(data: Body): set<FormData>
  {
    if data.Form? then {data.form} else {}
  }

  /**
   * The interceptor: with no usable admin id the config passes untouched;
   * otherwise a GET gets `adminId` in its params, a FormData body gets an
   * `adminId` entry unless it has one, and any other body gets an `adminId`
   * field. The same config object is returned and its method and url never
   * change.
   */
  method Intercept(config: RequestConfig, adminId: Option<string>) returns (r: RequestConfig)
    modifies config, FormOf(config.data)
    ensures r == config
    ensures config.httpMethod == old(config.httpMethod) && config.url == old(config.url)
    ensures !HasAdmin(adminId) ==>
      && config.params == old(config.params) && config.data == old(config.data)
      && (config.data.Form? ==> config.data.form.entries == old(config.data.form.entries))
    ensures HasAdmin(adminId) && IsGet(old(config.httpMethod)) ==>
      && config.params == Some(WithAdmin(old(config.params), adminId.value))
      && config.data == old(config.data)
      && (config.data.Form? ==> config.data.form.entries == old(config.data.form.entries))
    ensures HasAdmin(adminId) && !IsGet(old(config.httpMethod)) && old(config.data).Form? ==>
      && config.params == old(config.params) && config.data == old(config.data)
      && config.data.form.entries == AppendOnce(old(config.data.form.entries), adminId.value)
    ensures HasAdmin(adminId) && !IsGet(old(config.httpMethod)) && !old(config.data).Form? ==>
      && config.params == old(config.params)
      && config.data == Fields(BodyWithAdmin(old(config.data), adminId.value))
  {
    r := config;
    if !HasAdmin(adminId) {
      return;
    }
    var id := adminId.value;
    if LowerCase(config.httpMethod) == "get" {
      config.params := Some(WithAdmin(config.params, id));
    } else if config.data.Form? {
      var form := config.data.form;
      var hasAdminId := FormHasKey(form, AdminKey);
      if !hasAdminId {
        form.Append(AdminKey, id);
      }
    } else {
      config.data := Fields(BodyWithAdmin(config.data, id));
    }
  }
}
