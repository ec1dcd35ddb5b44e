/**
  The host code-review page as the content script sees it: its URL, the
  pull-request body field (`textarea[name="pull_request[body]"]`) when the page
  has one, and the text content of the elements each extraction selector group
  matches, in document order.
 */
module HostPage {
  import opened JsText

  datatype Page = Page(
    url: string,
    /** value of the pull-request body field, `None` when the page has no such field */
    body: Option<string>,
    /** `.file-diff, .diff-view, .js-diff-progressive-container` */
    diffTexts: seq<string>,
    /** `.commit-message, .commit-title` */
    commitTexts: seq<string>,
    /** `.blob-code, .highlight, pre code` */
    codeTexts: seq<string>,
    /** `.file-header, .file-info` */
    headerTexts: seq<string>
  )

  /** The page's existing template text: the body field's value, or empty when
      there is no field. */
  function ExtractPRTemplate(p: Page): (r: string)
    ensures p.body.Some? ==> r == p.body.value
    ensures p.body.None? ==> r == ""
  {
    OrElse(p.body, "")
  }

  /** Writes `description` into the body field, replacing its content; a page
      without the field is left unchanged. Nothing but the field changes. */
  function FillPRDescription(p: Page, description: string): (r: Page)
    ensures p.body.Some? ==> r.body == Some(description)
    ensures p.body.None? ==> r == p
    ensures r.(body := p.body) == p
  {
    if p.body.Some? then p.(body := Some(description)) else p
  }

  /** Reading the field back after a fill yields exactly what was written,
      whenever the page has the field. */
  lemma FillThenRead(p: Page, description: string)
    requires p.body.Some?
    ensures ExtractPRTemplate(FillPRDescription(p, description)) == description
  {
  }

  /** The last fill wins. */
  lemma FillTwice(p: Page, a: string, b: string)
    ensures FillPRDescription(FillPRDescription(p, a), b) == FillPRDescription(p, b)
  {
  }
}
