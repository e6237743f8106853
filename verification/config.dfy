/**
 * The one computed setting of the configuration: the native endpoint URL of
 * the model server, derived from the OpenAI-compatible base URL by dropping
 * a trailing "/v1".
 */
module Config {
  import opened Text

  /** The OpenAI-compatible base URL used when the environment sets none. */
  const DefaultBaseUrl: string := "http://192.168.88.21:91/v1"

  const ApiSuffix: string := "/v1"

  /** `Config.native_ollama_url`: the base URL without its "/v1" suffix. */
  function NativeOllamaUrl(baseUrl: string): (r: string)
    ensures EndsWith(baseUrl, ApiSuffix) ==> r + ApiSuffix == baseUrl
    ensures !EndsWith(baseUrl, ApiSuffix) ==> r == baseUrl
    ensures IsPrefix(r, baseUrl)
    ensures |r| == |baseUrl| - 3 || |r| == |baseUrl|
  {
    if EndsWith(baseUrl, ApiSuffix) then
      var r := baseUrl[..|baseUrl| - 3];
      assert baseUrl == r + baseUrl[|baseUrl| - 3..];
      r
    else baseUrl
  }

  /** Appending "/v1" and deriving the native URL gives back the original URL. */
  lemma NativeOfApiUrl(url: string)
    ensures NativeOllamaUrl(url + ApiSuffix) == url
  {
    var full := url + ApiSuffix;
    assert full[|full| - 3..] == ApiSuffix;
    assert full[..|full| - 3] == url;
  }

  /** The default base URL maps to the server root the embedding client uses. */
  lemma DefaultNativeUrl()
    ensures NativeOllamaUrl(DefaultBaseUrl) == "http://192.168.88.21:91"
  {
    NativeOfApiUrl("http://192.168.88.21:91");
    assert "http://192.168.88.21:91" + ApiSuffix == DefaultBaseUrl;
  }
}
