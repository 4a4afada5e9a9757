/** The extra request parameter set_penguin_id stores for drop reports to Penguin Statistics. */
module PenguinReport {

  const HeaderPrefix: string := "-H \"authorization: PenguinID "

  /** The stored parameter: empty for an empty id, otherwise an authorization header carrying the id. */
  function ExtraParam(id: string): string {
    if id == "" then "" else HeaderPrefix + id + "\""
  }

  /** Reads the id back out of a stored parameter (the partner of ExtraParam). */
  function IdOf(param: string): string {
    if |param| > |HeaderPrefix| && param[..|HeaderPrefix|] == HeaderPrefix
    then param[|HeaderPrefix|..|param| - 1]
    else ""
  }

  /** The parameter is empty exactly for the empty id, and always gives the id back. */
  lemma ExtraParamRoundTrip(id: string)
    ensures ExtraParam(id) == "" <==> id == ""
    ensures IdOf(ExtraParam(id)) == id
    ensures id != "" ==> ExtraParam(id)[..|HeaderPrefix|] == HeaderPrefix && ExtraParam(id)[|ExtraParam(id)| - 1] == '"'
  {
    if id != "" {
      var p := ExtraParam(id);
      assert p == HeaderPrefix + id + "\"";
      assert p[..|HeaderPrefix|] == HeaderPrefix;
      assert p[|HeaderPrefix|..|p| - 1] == id;
    }
  }
}
