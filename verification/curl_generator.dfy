/** services/curl_generator.js: renders the item request as a shell `curl`
    command and writes it as text. The request body arrives already
    serialized (the text JSON.stringify(payload) produces). */
module CurlGenerator {
  import opened FileHandler

  /** One request header: its name and its value. */
  datatype Header = Header(name: string, value: string)

  /** The fifteen headers copied from a browser session, in order. */
  const FixedHeaders: seq<Header> := [
    Header("accept", "*/*"),
    Header("accept-language", "ru-RU,ru;q=0.9,en-US;q=0.8,en;q=0.7"),
    Header("cache-control", "no-cache"),
    Header("content-type", "text/plain;charset=UTF-8"),
    Header("origin", "https://ortak.me"),
    Header("pragma", "no-cache"),
    Header("priority", "u=1, i"),
    Header("referer", "https://ortak.me/en/collections/nhl/nfts"),
    Header("sec-ch-ua", "\"Google Chrome\";v=\"131\", \"Chromium\";v=\"131\", \"Not_A Brand\";v=\"24\""),
    Header("sec-ch-ua-mobile", "?0"),
    Header("sec-ch-ua-platform", "\"Windows\""),
    Header("sec-fetch-dest", "empty"),
    Header("sec-fetch-mode", "cors"),
    Header("sec-fetch-site", "same-origin"),
    Header("user-agent", "Mozilla/5.0 (Windows NT 10.0; Win64; x64) AppleWebKit/537.36 (KHTML, like Gecko) Chrome/131.0.0.0 Safari/537.36")
  ]

  const TokenName := "x-auth-token"

  /** The first line: the quoted URL and a line continuation. */
  function CurlPrefix(url: string): string
  {
    "curl '" + url + "' \\\n"
  }

  /** One `-H` option line, quoted as-is and continued. */
  function HeaderLine(h: Header): string
  {
    "  -H '" + h.name + ": " + h.value + "' \\\n"
  }

  function HeaderBlock(hs: seq<Header>): string
  {
    if hs == [] then "" else HeaderLine(hs[0]) + HeaderBlock(hs[1..])
  }

  /** The last line: the body, quoted as-is. */
  function DataRaw(payloadJson: string): string
  {
    "  --data-raw '" + payloadJson + "'"
  }

  /** The headers sent: the fixed ones, then the token. */
  function Headers(token: string): (hs: seq<Header>)
  {
    FixedHeaders + [Header(TokenName, token)]
  }

  /** The fifteen fixed header lines, the same in every command. */
  function FixedBlock(): string
  {
    HeaderBlock(FixedHeaders)
  }

  /** The command template with its header block left open. */
  function Assemble(url: string, block: string, token: string, payloadJson: string): string
  {
    CurlPrefix(url) + block + HeaderLine(Header(TokenName, token)) + DataRaw(payloadJson)
  }

  /** generateCurl: one template literal, nothing escaped: the URL line, the
      fixed header lines, the token header line, the body line. */
  function GenerateCurl(payloadJson: string, url: string, token: string): (r: string)
  {
    Assemble(url, FixedBlock(), token, payloadJson)
  }

  /** The header lines are the fixed ones followed by the token one. */
  lemma {:induction false} HeaderBlockAppend(hs: seq<Header>, h: Header)
    ensures HeaderBlock(hs + [h]) == HeaderBlock(hs) + HeaderLine(h)
  {
    if hs != [] {
      assert (hs + [h])[1..] == hs[1..] + [h];
      HeaderBlockAppend(hs[1..], h);
    }
  }

  /** The command splits at offsets that depend only on the lengths of the
      inputs: the URL line, then the header block, then the opening of the
      token header, the token verbatim, the close of that line, and last the
      body line with the body verbatim. GenerateCurl is this template on
      FixedBlock(), the fifteen fixed header lines, the same in every
      command. */
  lemma Layout(url: string, block: string, token: string, payloadJson: string)
    ensures var r := Assemble(url, block, token, payloadJson);
      var a := |CurlPrefix(url)|;
      var b := a + |block|;
      var t := b + |"  -H '" + TokenName + ": "|;
      |r| == t + |token| + |"' \\\n"| + |DataRaw(payloadJson)|
      && r[..a] == CurlPrefix(url)
      && r[a..b] == block
      && r[b..t] == "  -H '" + TokenName + ": "
      && r[t..t + |token|] == token
      && r[t + |token|..t + |token| + |"' \\\n"|] == "' \\\n"
      && r[|r| - |DataRaw(payloadJson)|..] == DataRaw(payloadJson)
  {
    var pre := CurlPrefix(url);
    var open, tail, data := "  -H '" + TokenName + ": ", "' \\\n", DataRaw(payloadJson);
    assert HeaderLine(Header(TokenName, token)) == open + token + tail;
    var r := pre + block + open + token + tail + data;
    assert r == pre + (block + (open + (token + (tail + data))));
  }

  lemma AssembleInjective(block: string, p1: string, u1: string, t1: string, p2: string, u2: string, t2: string)
    requires |u1| == |u2| && |t1| == |t2|
    requires Assemble(u1, block, t1, p1) == Assemble(u2, block, t2, p2)
    ensures p1 == p2 && u1 == u2 && t1 == t2
  {
    Layout(u1, block, t1, p1);
    Layout(u2, block, t2, p2);
    assert CurlPrefix(u1) == CurlPrefix(u2);
    assert u1 == CurlPrefix(u1)[6..6 + |u1|];
    assert u2 == CurlPrefix(u2)[6..6 + |u2|];
    assert DataRaw(p1) == DataRaw(p2);
    assert p1 == DataRaw(p1)[14..14 + |p1|];
    assert p2 == DataRaw(p2)[14..14 + |p2|];
  }

  /** Nothing is lost or escaped: for URLs of equal length and tokens of equal
      length, equal commands come only from equal inputs. */
  lemma GenerateCurlInjective(p1: string, u1: string, t1: string, p2: string, u2: string, t2: string)
    requires |u1| == |u2| && |t1| == |t2|
    requires GenerateCurl(p1, u1, t1) == GenerateCurl(p2, u2, t2)
    ensures p1 == p2 && u1 == u2 && t1 == t2
  {
    AssembleInjective(FixedBlock(), p1, u1, t1, p2, u2, t2);
  }

  /** The text that ends the token header line and opens the body line. */
  const BodyOpener := "' \\\n  --data-raw '"

  /** Regrouping: a separator moved from the end of one part to the start
      of the next leaves the concatenation as it was. */
  lemma MoveSeparator(pre: string, a: string, b: string, c: string, close: string, data: string, post: string)
    ensures pre + (a + (close + data) + b) + close + data + c + post
         == pre + a + close + data + (b + (close + data) + c) + post
  {
    var flat := pre + a + close + data + b + close + data + c + post;
    assert pre + (a + (close + data) + b) + close + data + c + post == flat;
    assert pre + a + close + data + (b + (close + data) + c) + post == flat;
  }

  /** Nothing in the template is escaped: a token holding the end of its own
      header line and the start of a body line moves text from the token into
      the body, so different inputs can give the same command. */
  lemma AssembleTokenInjection(url: string, block: string, a: string, b: string, c: string)
    ensures Assemble(url, block, a + BodyOpener + b, c) == Assemble(url, block, a, b + BodyOpener + c)
  {
    var open, close, data := "  -H '" + TokenName + ": ", "' \\\n", "  --data-raw '";
    assert BodyOpener == close + data;
    var pre := CurlPrefix(url) + block + open;
    assert Assemble(url, block, a + BodyOpener + b, c) == pre + (a + BodyOpener + b) + close + data + c + "'";
    assert Assemble(url, block, a, b + BodyOpener + c) == pre + a + close + data + (b + BodyOpener + c) + "'";
    MoveSeparator(pre, a, b, c, close, data, "'");
  }

  /** The token can carry a second `--data-raw`: the command for body c and
      token a + BodyOpener + b equals the one for body b + BodyOpener + c and
      token a, although the first token is the longer one. */
  lemma TokenInjectsBody(url: string, a: string, b: string, c: string)
    ensures |a + BodyOpener + b| > |a|
    ensures GenerateCurl(c, url, a + BodyOpener + b) == GenerateCurl(b + BodyOpener + c, url, a)
  {
    AssembleTokenInjection(url, FixedBlock(), a, b, c);
  }

  /** The command sends sixteen headers, and the token travels in exactly
      one of them, the last: no fixed header is named x-auth-token. */
  lemma OneTokenHeader(token: string)
    ensures |Headers(token)| == 16
    ensures Headers(token)[15] == Header(TokenName, token)
    ensures forall i :: 0 <= i < 15 ==> Headers(token)[i].name != TokenName
  {
  }

  /** The header lines of the command are exactly those of Headers(token). */
  lemma HeaderLinesOfCommand(token: string)
    ensures HeaderBlock(Headers(token)) == FixedBlock() + HeaderLine(Header(TokenName, token))
  {
    HeaderBlockAppend(FixedHeaders, Header(TokenName, token));
  }

  /** run: the generated command, as raw text, at the configured curl path. */
  method Run<D>(disk: FileStore<D>, payloadJson: string, url: string, token: string, buyNftCurl: string, ok: bool)
    modifies disk
    ensures disk.files == Write(old(disk.files), buyNftCurl, Raw(GenerateCurl(payloadJson, url, token)), ok)
  {
    var curlCommand := GenerateCurl(payloadJson, url, token);
    disk.WriteToFile(Raw(curlCommand), buyNftCurl, ok);
  }
}
