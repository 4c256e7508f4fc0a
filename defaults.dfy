/**
 * The request-option presets and `initFormPost`, which turns form data into
 * POST options: multipart when some entry is a file, otherwise a URL-encoded
 * body built from the entries in order.
 */
module Defaults {
  import opened Common

  /** A `FormData` entry value. A file is kept only by its name. */
  datatype FormValue = FileValue(fileName: string) | TextValue(text: string)

  /** `formData.entries()`, in insertion order. */
  type FormData = seq<(string, FormValue)>

  datatype Body = Multipart(form: FormData) | UrlEncoded(text: string)

  /** The fields of `RequestInit` the presets set (`method` as `httpMethod`), and the body `initFormPost` adds. */
  datatype RequestInit = RequestInit(
    httpMethod: string,
    credentials: string,
    headers: map<string, string>,
    body: Option<Body>)

  const DefaultGetInit: RequestInit :=
    RequestInit("GET", "include", map["Accept" := "application/json"], None)

  const DefaultPostInit: RequestInit :=
    RequestInit("POST", "include",
                map["Accept" := "application/json",
                    "Content-Type" := "application/x-www-form-urlencoded"],
                None)

  const DefaultFormDataPostInit: RequestInit :=
    RequestInit("POST", "include", map["Accept" := "application/json"], None)

  /** The header rules the three presets follow. */
  lemma PresetRules()
    ensures DefaultGetInit.httpMethod == "GET"
    ensures DefaultPostInit.httpMethod == "POST" && DefaultFormDataPostInit.httpMethod == "POST"
    ensures DefaultGetInit.credentials == DefaultPostInit.credentials == DefaultFormDataPostInit.credentials == "include"
    ensures forall p :: p in {DefaultGetInit, DefaultPostInit, DefaultFormDataPostInit} ==>
      "Accept" in p.headers && p.headers["Accept"] == "application/json" && p.body.None?
    ensures "Content-Type" in DefaultPostInit.headers &&
      DefaultPostInit.headers["Content-Type"] == "application/x-www-form-urlencoded"
    ensures "Content-Type" !in DefaultGetInit.headers && "Content-Type" !in DefaultFormDataPostInit.headers
  {
  }

  /** `entries.some((entry) => entry[1] instanceof File)` */
  function HasFile(entries: FormData): (b: bool)
    ensures b <==> exists i :: 0 <= i < |entries| && entries[i].1.FileValue?
  {
    if entries == [] then false
    else entries[0].1.FileValue? || HasFile(entries[1..])
  }

  /** `value.toString()`: a string is itself; a `File` prints as an object. */
  function ValueString(v: FormValue): string {
    match v
    case TextValue(s) => s
    case FileValue(_) => "[object File]"
  }

  /** `${key}=${encodeURIComponent(value.toString())}` */
  function RenderEntry(entry: (string, FormValue), encode: string -> string): string {
    entry.0 + "=" + encode(ValueString(entry.1))
  }

  /** `parts.join(sep)` */
  function Join(parts: seq<string>, sep: char): string {
    if |parts| == 0 then ""
    else if |parts| == 1 then parts[0]
    else parts[0] + [sep] + Join(parts[1..], sep)
  }

  /** The URL-encoded body: every entry rendered, in order, joined with `&`. */
  function UrlEncodeEntries(entries: FormData, encode: string -> string): string {
    Join(seq(|entries|, i requires 0 <= i < |entries| => RenderEntry(entries[i], encode)), '&')
  }

  /** `initFormPost(formData)`, with `encodeURIComponent` as the parameter `encode`. */
  function InitFormPost(formData: FormData, encode: string -> string): (r: RequestInit)
    ensures HasFile(formData) ==> r == DefaultFormDataPostInit.(body := Some(Multipart(formData)))
    ensures !HasFile(formData) ==> r == DefaultPostInit.(body := Some(UrlEncoded(UrlEncodeEntries(formData, encode))))
    // the preset's fields are copied unchanged; only the body is added
    ensures r.(body := None) in {DefaultPostInit, DefaultFormDataPostInit} && r.body.Some?
    ensures r.body.value.Multipart? <==> exists i :: 0 <= i < |formData| && formData[i].1.FileValue?
  {
    var entries := formData;
    if HasFile(entries) then
      DefaultFormDataPostInit.(body := Some(Multipart(formData)))
    else
      DefaultPostInit.(body := Some(UrlEncoded(UrlEncodeEntries(entries, encode))))
  }

  // ---------------------------------------------------------------------
  // A reference reader of URL-encoded bodies, against which the encoder is
  // proved: split on `&`, split each part on its first `=`, decode values.
  // ---------------------------------------------------------------------

  /** `s.split(sep)`: the maximal separator-free pieces, `[""]` for `""`. */
  function SplitOn(s: string, sep: char): (parts: seq<string>)
    ensures |parts| >= 1
    ensures forall i :: 0 <= i < |parts| ==> sep !in parts[i]
  {
    if s == [] then [[]]
    else
      var rest := SplitOn(s[1..], sep);
      if s[0] == sep then [[]] + rest
      else [[s[0]] + rest[0]] + rest[1..]
  }

  /** Cut `s` at its first `c`; when there is none the value part is empty. */
  function SplitFirst(s: string, c: char): (string, string) {
    if s == [] then ([], [])
    else if s[0] == c then ([], s[1..])
    else
      var kv := SplitFirst(s[1..], c);
      ([s[0]] + kv.0, kv.1)
  }

  /** The (key, decoded value) pairs a URL-encoded body holds; none for `""`. */
  function ParseUrlEncoded(body: string, decode: string -> string): seq<(string, string)> {
    if body == "" then []
    else
      var parts := SplitOn(body, '&');
      seq(|parts|, i requires 0 <= i < |parts| =>
        var kv := SplitFirst(parts[i], '='); (kv.0, decode(kv.1)))
  }

  /** The entries as string pairs. */
  function Fields(entries: FormData): seq<(string, string)> {
    seq(|entries|, i requires 0 <= i < |entries| => (entries[i].0, ValueString(entries[i].1)))
  }

  lemma {:induction false} SplitOnFree(a: string, sep: char)
    requires sep !in a
    ensures SplitOn(a, sep) == [a]
    decreases |a|
  {
    if a != [] {
      SplitOnFree(a[1..], sep);
      assert a[0] != sep;
      assert [a[0]] + a[1..] == a;
    }
  }

  lemma {:induction false} SplitOnCons(a: string, sep: char, b: string)
    requires sep !in a
    ensures SplitOn(a + [sep] + b, sep) == [a] + SplitOn(b, sep)
    decreases |a|
  {
    if a == [] {
      assert a + [sep] + b == [sep] + b;
      assert ([sep] + b)[1..] == b;
    } else {
      SplitOnCons(a[1..], sep, b);
      assert (a + [sep] + b)[1..] == a[1..] + [sep] + b;
      assert [a[0]] + a[1..] == a;
    }
  }

  /** Splitting a join of separator-free parts gives the parts back. */
  lemma {:induction false} SplitJoin(parts: seq<string>, sep: char)
    requires |parts| >= 1
    requires forall i :: 0 <= i < |parts| ==> sep !in parts[i]
    ensures SplitOn(Join(parts, sep), sep) == parts
    decreases |parts|
  {
    if |parts| == 1 {
      SplitOnFree(parts[0], sep);
    } else {
      SplitJoin(parts[1..], sep);
      SplitOnCons(parts[0], sep, Join(parts[1..], sep));
      assert [parts[0]] + parts[1..] == parts;
    }
  }

  lemma {:induction false} SplitFirstAt(k: string, c: char, v: string)
    requires c !in k
    ensures SplitFirst(k + [c] + v, c) == (k, v)
    decreases |k|
  {
    if k == [] {
      assert k + [c] + v == [c] + v;
      assert ([c] + v)[1..] == v;
    } else {
      SplitFirstAt(k[1..], c, v);
      assert (k + [c] + v)[1..] == k[1..] + [c] + v;
      assert [k[0]] + k[1..] == k;
    }
  }

  /**
   * The URL-encoded branch round-trips: when no key holds `&` or `=`, the
   * encoder never emits `&` and decoding undoes it, reading the body back
   * yields the entries' keys, verbatim, with their string values, in order.
   * An encoded value may hold `=`, since only a key's first `=` separates.
   */
  lemma {:induction false} UrlEncodedRoundTrip(formData: FormData, encode: string -> string, decode: string -> string)
    requires !HasFile(formData)
    requires forall i :: 0 <= i < |formData| ==> '&' !in formData[i].0 && '=' !in formData[i].0
    requires forall s :: '&' !in encode(s)
    requires forall s :: decode(encode(s)) == s
    ensures InitFormPost(formData, encode).body == Some(UrlEncoded(UrlEncodeEntries(formData, encode)))
    ensures ParseUrlEncoded(UrlEncodeEntries(formData, encode), decode) == Fields(formData)
  {
    var rendered := seq(|formData|, i requires 0 <= i < |formData| => RenderEntry(formData[i], encode));
    var body := UrlEncodeEntries(formData, encode);
    assert body == Join(rendered, '&');
    if |formData| == 0 {
      assert body == "";
    } else {
      forall i | 0 <= i < |rendered|
        ensures '&' !in rendered[i]
        ensures SplitFirst(rendered[i], '=') == (formData[i].0, encode(ValueString(formData[i].1)))
      {
        assert rendered[i] == formData[i].0 + ['='] + encode(ValueString(formData[i].1));
        SplitFirstAt(formData[i].0, '=', encode(ValueString(formData[i].1)));
      }
      SplitJoin(rendered, '&');
      assert |rendered[0]| > 0 by {
        assert rendered[0] == formData[0].0 + ['='] + encode(ValueString(formData[0].1));
      }
      JoinKeepsFirst(rendered, '&');
      assert body != "";
    }
  }

  /** A join starts with its first part, so a join of a non-empty first part is non-empty. */
  lemma JoinKeepsFirst(parts: seq<string>, sep: char)
    requires |parts| >= 1
    ensures |Join(parts, sep)| >= |parts[0]|
  {
  }

  /** An empty form takes the URL-encoded branch with an empty body. */
  lemma EmptyFormIsUrlEncoded(encode: string -> string)
    ensures InitFormPost([], encode) == DefaultPostInit.(body := Some(UrlEncoded("")))
  {
  }
}
