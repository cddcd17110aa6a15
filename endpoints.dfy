/**
 * The two remote endpoints the form talks to, and the requests it sends them:
 * a GET per corporation-number lookup and a JSON POST of the whole profile.
 */
module Endpoints {
  import opened JsValues
  import opened FormSchema

  /** The base URL both hooks hard-code. */
  const ApiBase := "https://fe-hometask-api.qa.vault.tryvault.com"
  const LookupPrefix := ApiBase + "/corporation-number/"
  const ProfileDetailsUrl := ApiBase + "/profile-details"
  const JsonContentType := "application/json"

  /** The keys of the profile body, in the order the form's data object holds them. */
  const ProfileKeys := ["firstName", "lastName", "phone", "corporationNumber"]

  /** A request as issued to `fetch`; a JSON body is an ordered list of string members. */
  datatype HttpRequest =
    | Get(url: string)
    | Post(url: string, contentType: string, body: seq<(string, string)>)

  /** The lookup URL: the base, `/corporation-number/`, then the number verbatim. */
  function CorporationLookupUrl(number: string): (url: string)
    ensures |url| == |LookupPrefix| + |number|
    ensures url[..|LookupPrefix|] == LookupPrefix
  {
    LookupPrefix + number
  }

  /** The number a lookup URL asks about, if it is a lookup URL at all. */
  function LookupNumber(url: string): Option<string> {
    if |LookupPrefix| <= |url| && url[..|LookupPrefix|] == LookupPrefix
    then Some(url[|LookupPrefix|..])
    else None
  }

  /** The number is embedded verbatim: it can be read back from the URL. */
  lemma LookupUrlRoundTrip(number: string)
    ensures LookupNumber(CorporationLookupUrl(number)) == Some(number)
  {
    var url := CorporationLookupUrl(number);
    assert url[|LookupPrefix|..] == number;
  }

  /** Two lookups hit the same URL only when they are for the same number. */
  lemma LookupUrlInjective(a: string, b: string)
    requires CorporationLookupUrl(a) == CorporationLookupUrl(b)
    ensures a == b
  {
    LookupUrlRoundTrip(a);
    LookupUrlRoundTrip(b);
  }

  /** `JSON.stringify(data)`: the four fields, keyed by their names, in declaration order. */
  function ProfileBody(d: FormData): (body: seq<(string, string)>)
    ensures |body| == |ProfileKeys|
    ensures forall i :: 0 <= i < |body| ==> body[i].0 == ProfileKeys[i]
  {
    [("firstName", d.firstName), ("lastName", d.lastName),
     ("phone", d.phone), ("corporationNumber", d.corporationNumber)]
  }

  /** Reads a profile back from a body whose keys are exactly the profile's keys, in order. */
  function ProfileOfBody(body: seq<(string, string)>): Option<FormData> {
    if |body| == |ProfileKeys| && forall i :: 0 <= i < |body| ==> body[i].0 == ProfileKeys[i]
    then Some(FormData(body[0].1, body[1].1, body[2].1, body[3].1))
    else None
  }

  /** The body carries every field unchanged: reading it back gives the submitted data. */
  lemma ProfileBodyRoundTrip(d: FormData)
    ensures ProfileOfBody(ProfileBody(d)) == Some(d)
  {
  }

  /** The single POST a submission issues. */
  function ProfilePost(d: FormData): (r: HttpRequest)
    ensures r.Post? && r.url == ProfileDetailsUrl && r.contentType == JsonContentType
    ensures ProfileOfBody(r.body) == Some(d)
  {
    Post(ProfileDetailsUrl, JsonContentType, ProfileBody(d))
  }

  /** The URLs the form's tests expect. */
  lemma UrlExamples()
    ensures CorporationLookupUrl("123456789")
      == "https://fe-hometask-api.qa.vault.tryvault.com/corporation-number/123456789"
    ensures ProfileDetailsUrl == "https://fe-hometask-api.qa.vault.tryvault.com/profile-details"
  {
  }
}
