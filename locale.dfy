/** The two interaction languages, with their wire codes and speech tags. */
module Locale {
  import opened Wrappers

  datatype Lang = En | Hi

  /** The code the page sends and the route accepts: "en" or "hi". */
  function Code(l: Lang): (c: string)
    ensures |c| == 2
  {
    match l
    case En => "en"
    case Hi => "hi"
  }

  /** The route's language test: only "en" and "hi" name a language. */
  function FromCode(s: string): (r: Option<Lang>)
    ensures r.Some? <==> s == "en" || s == "hi"
    ensures r.Some? ==> Code(r.value) == s
  {
    if s == "en" then Some(En)
    else if s == "hi" then Some(Hi)
    else None
  }

  /** The BCP 47 tag given to speech recognition and synthesis. */
  function Tag(l: Lang): (t: string)
    ensures |t| == 5 && t[..2] == Code(l) && t[2] == '-'
  {
    match l
    case Hi => "hi-IN"
    case En => "en-US"
  }

  /** The language button: English becomes Hindi and Hindi English. */
  function Toggle(l: Lang): (r: Lang)
    ensures r != l
  {
    if l == En then Hi else En
  }
}
