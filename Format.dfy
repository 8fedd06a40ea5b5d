/** Result assembly: `formatResult`. */
module Format {
  import opened Wrappers
  import opened Random
  import opened Sampling
  import opened Files

  /** What the pipeline hands back: `{url, collection, title, size, format, detailsURL}`. */
  datatype ArchiveResult = ArchiveResult(url: string, collection: Option<string>, title: Option<string>,
                                         size: Option<string>, format: string, detailsURL: string)

  /** A template literal's rendering of a possibly `undefined` string. */
  function Render(s: Option<string>): string {
    match s
    case None => "undefined"
    case Some(v) => v
  }

  /** `https://${server}${dir}/${file.name}`. */
  function DownloadURL(server: Option<string>, dir: string, file: File): string {
    "https://" + Render(server) + dir + "/" + file.name
  }

  /** `https://archive.org/details/${item.identifier}`. */
  function DetailsURL(identifier: string): string {
    "https://archive.org/details/" + identifier
  }

  /** `formatResult` as a function of the two values of `random()` it uses, the first to pick the
      server and the second to pick the file. The file list is never empty: `filterFiles` fails
      the attempt otherwise. */
  function FormatResultOf(collection: Option<string>, item: Item, dir: string, files: seq<File>,
                          servers: seq<string>, serverDraw: Draw, fileDraw: Draw): ArchiveResult
    requires |files| > 0
  {
    var server := Pick(servers, serverDraw);
    var file := Pick(files, fileDraw).value;
    ArchiveResult(DownloadURL(server, dir, file), collection, item.title, file.size, file.format,
                  DetailsURL(item.identifier))
  }

  /** `formatResult({collection, item, dir, files, workable_servers}, done)`. */
  method FormatResult(collection: Option<string>, item: Item, dir: string, files: seq<File>,
                      servers: seq<string>, probable: Probable) returns (r: ArchiveResult)
    requires |files| > 0
    modifies probable
    ensures probable.calls == old(probable.calls) + 2
    ensures r == FormatResultOf(collection, item, dir, files, servers,
                                probable.random(old(probable.calls)), probable.random(old(probable.calls) + 1))
  {
    var server := probable.PickFromArray(servers);
    var file := probable.PickFromArray(files);
    var url := "https://" + Render(server) + dir + "/" + file.value.name;
    r := ArchiveResult(url, collection, item.title, file.value.size, file.value.format,
                       "https://archive.org/details/" + item.identifier);
  }

  /** The URL is `https://` + one of the servers + the directory + `/` + the name of one of the
      files; size and format come from that same file; title and details URL from the item. */
  lemma FormatResultFields(collection: Option<string>, item: Item, dir: string, files: seq<File>,
                           servers: seq<string>, serverDraw: Draw, fileDraw: Draw)
    requires |files| > 0 && |servers| > 0
    ensures var r := FormatResultOf(collection, item, dir, files, servers, serverDraw, fileDraw);
      (exists s, k :: 0 <= s < |servers| && 0 <= k < |files|
         && r.url == "https://" + servers[s] + dir + "/" + files[k].name
         && r.size == files[k].size && r.format == files[k].format)
      && r.collection == collection && r.title == item.title
      && r.detailsURL == "https://archive.org/details/" + item.identifier
  {
    var s := Scale(serverDraw, |servers|);
    var k := Scale(fileDraw, |files|);
    var r := FormatResultOf(collection, item, dir, files, servers, serverDraw, fileDraw);
    assert r.url == "https://" + servers[s] + dir + "/" + files[k].name;
  }

  /** Every combination of server and file is produced by some pair of values of `random()`. */
  lemma FormatResultReaches(collection: Option<string>, item: Item, dir: string, files: seq<File>,
                            servers: seq<string>, s: nat, k: nat)
    requires s < |servers| && k < |files|
    ensures FormatResultOf(collection, item, dir, files, servers, Fraction(s, |servers|), Fraction(k, |files|))
         == ArchiveResult("https://" + servers[s] + dir + "/" + files[k].name, collection, item.title,
                          files[k].size, files[k].format, DetailsURL(item.identifier))
  {
    PickReaches(servers, s);
    PickReaches(files, k);
  }

  /** With no workable servers, `pickFromArray` yields `undefined` and the URL's host is the
      text "undefined". */
  lemma NoServerRendersUndefined(collection: Option<string>, item: Item, dir: string, files: seq<File>,
                                 serverDraw: Draw, fileDraw: Draw)
    requires |files| > 0
    ensures var r := FormatResultOf(collection, item, dir, files, [], serverDraw, fileDraw);
      r.url[..|"https://undefined"|] == "https://undefined"
  {
  }
}
