/** The two interface languages of the shared theme context, and their stored codes. */
module Language {
  import opened Wrappers

  datatype Lang = En | Hi

  /** The code a language is persisted as. */
  function Code(l: Lang): string {
    match l
    case En => "en"
    case Hi => "hi"
  }

  /** Accepts exactly the two codes, as the hydration guard `saved === "hi" || saved === "en"` does. */
  function Parse(s: string): (r: Option<Lang>)
    ensures r.Some? <==> s == "en" || s == "hi"
    ensures r.Some? ==> Code(r.value) == s
  {
    if s == "en" then Some(En) else if s == "hi" then Some(Hi) else None
  }

  lemma ParseCode(l: Lang)
    ensures Parse(Code(l)) == Some(l)
  {
  }
}
