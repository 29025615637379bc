/**
 * A fetched page, as the scraper sees it once BeautifulSoup has parsed it.
 *
 * The HTML parser itself is not modelled. A page is reduced to what the two
 * extractors read from it: the text of every `<script>` element in document
 * order (`script.string or script.text`), and every `<div>` element in
 * document order with the attributes the fallback reads and its first
 * descendant `<img>` (`div.find("img")`), if any.
 */
module Markup {
  import opened PyJson

  /** An `<img>` element: its `src`, `data-src` and `alt` attributes, each
      present or not. */
  datatype Img = Img(src: Option<string>, dataSrc: Option<string>, alt: Option<string>)

  /** A `<div>` element: its `data-test-id` and `data-pin-id` attributes and
      its first descendant `<img>`. */
  datatype Div = Div(testId: Option<string>, pinId: Option<string>, img: Option<Img>)

  datatype Page = Page(scripts: seq<string>, divs: seq<Div>)

  /** An HTTP response: the status code and the parsed body. */
  datatype Response = Response(status: int, page: Page)
}
