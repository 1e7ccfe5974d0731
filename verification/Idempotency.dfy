/** Ownership of idempotency keys: one row per key, compare-and-set, any number of requests. */
module Idempotency {

  datatype Option<+T> = None | Some(value: T)

  /** Keys and fingerprints stand for the digests of the parts they are made of. */
  datatype Key = Key(parts: seq<string>)
  datatype Fingerprint = Fingerprint(parts: seq<string>, body: seq<int>)

  type Token = nat

  datatype Header = Header(name: string, value: string)

  datatype Body = Body(status: nat, content: seq<int>, headers: seq<Header>)

  /** A streaming outcome is uncertain and is never stored. */
  datatype Response = Plain(body: Body) | Streaming

  datatype Row = Running(token: Token, fingerprint: Fingerprint)
               | Complete(token: Token, fingerprint: Fingerprint, body: Body, expires: int)

  type Rows = map<Key, Row>

  datatype Claim = Claim(key: Key, token: Token, ttl: nat)

  // --- The three statements the store sends ----------------------------------------------

  function Created(rows: Rows, key: Key, token: Token, fp: Fingerprint): Rows {
    if key in rows then rows else rows[key := Running(token, fp)]
  }

  predicate Expired(row: Row, now: int) {
    row.Complete? && row.expires <= now
  }

  /** The row still is the snapshot's, complete and expired: the condition of the update. */
  predicate CanReclaim(rows: Rows, key: Key, seen: Token, now: int) {
    key in rows && rows[key].token == seen && Expired(rows[key], now)
  }

  function Reclaimed(rows: Rows, key: Key, seen: Token, now: int, token: Token, fp: Fingerprint): Rows {
    if CanReclaim(rows, key, seen, now) then rows[key := Running(token, fp)] else rows
  }

  function Finished(rows: Rows, claim: Claim, response: Response, now: int): Rows {
    if response.Plain? && claim.key in rows && rows[claim.key].Running? && rows[claim.key].token == claim.token
    then rows[claim.key := Complete(claim.token, rows[claim.key].fingerprint, Stored(response.body), now + claim.ttl)]
    else rows
  }

  // --- Headers ----------------------------------------------------------------------------

  function LowerChar(c: char): char {
    if 'A' <= c <= 'Z' then c + 32 as char else c
  }

  function Lower(s: string): string {
    if s == "" then "" else [LowerChar(s[0])] + Lower(s[1..])
  }

  /** The space characters that header values, which are Latin-1, can hold. */
  predicate IsSpace(c: char) {
    c == ' ' || '\t' <= c <= '\r' || '\U{1c}' <= c <= '\U{1f}' || c == '\U{85}' || c == '\U{a0}'
  }

  function StripLeft(s: string): string {
    if s != "" && IsSpace(s[0]) then StripLeft(s[1..]) else s
  }

  function StripRight(s: string): string {
    if s != "" && IsSpace(s[|s| - 1]) then StripRight(s[..|s| - 1]) else s
  }

  /** The lower-case names of a comma-separated list. */
  function Names(s: string, word: string): set<string> {
    if s == "" then {Lower(StripRight(StripLeft(word)))}
    else if s[0] == ',' then {Lower(StripRight(StripLeft(word)))} + Names(s[1..], "")
    else Names(s[1..], word + [s[0]])
  }

  const HOP_BY_HOP: set<string> := {
    "set-cookie", "connection", "keep-alive", "proxy-authenticate", "proxy-authorization", "te", "trailer",
    "transfer-encoding", "upgrade", "x-request-id", "traceparent", "tracestate", "idempotent-replayed"
  }

  function Get(headers: seq<Header>, name: string): Option<string> {
    if headers == [] then None
    else if Lower(headers[0].name) == name then Some(headers[0].value)
    else Get(headers[1..], name)
  }

  function Set(headers: seq<Header>, h: Header): seq<Header> {
    if headers == [] then [h]
    else if Lower(headers[0].name) == Lower(h.name) then [h] + headers[1..]
    else [headers[0]] + Set(headers[1..], h)
  }

  function Omitted(headers: seq<Header>): set<string> {
    HOP_BY_HOP + Names(match Get(headers, "connection") case Some(v) => v case None => "", "")
  }

  function Without(headers: seq<Header>, omitted: set<string>): seq<Header> {
    if headers == [] then []
    else if Lower(headers[0].name) in omitted then Without(headers[1..], omitted)
    else [headers[0]] + Without(headers[1..], omitted)
  }

  function Stored(body: Body): Body {
    body.(headers := Without(body.headers, Omitted(body.headers)))
  }

  const DEFAULT_TYPE := Header("Content-Type", "text/html; charset=utf-8")

  function SetAll(headers: seq<Header>, added: seq<Header>): seq<Header>
    decreases |added|
  {
    if added == [] then headers else SetAll(Set(headers, added[0]), added[1..])
  }

  /** A replay starts from a new response, which has a default content type. */
  function Replay(body: Body): Body {
    body.(headers := Set(SetAll([DEFAULT_TYPE], body.headers), MARKER))
  }

  /** Header names are distinct, case-insensitively, as in any response object. */
  ghost predicate DistinctNames(headers: seq<Header>) {
    forall i, j | 0 <= i < j < |headers| :: Lower(headers[i].name) != Lower(headers[j].name)
  }

  lemma {:induction false} GetAfterSet(headers: seq<Header>, h: Header, name: string)
    ensures Get(Set(headers, h), name) == if Lower(h.name) == name then Some(h.value) else Get(headers, name)
  {
    if headers != [] && Lower(headers[0].name) != Lower(h.name) {
      GetAfterSet(headers[1..], h, name);
      assert Set(headers, h)[1..] == Set(headers[1..], h);
    }
  }

  lemma {:induction false} GetAbsent(headers: seq<Header>, name: string)
    requires forall h | h in headers :: Lower(h.name) != name
    ensures Get(headers, name) == None
  {
    if headers != [] { GetAbsent(headers[1..], name); }
  }

  lemma {:induction false} GetAfterSetAll(headers: seq<Header>, added: seq<Header>, name: string)
    requires DistinctNames(added)
    ensures Get(SetAll(headers, added), name) ==
      match Get(added, name) case Some(v) => Some(v) case None => Get(headers, name)
    decreases |added|
  {
    if added != [] {
      GetAfterSetAll(Set(headers, added[0]), added[1..], name);
      GetAfterSet(headers, added[0], name);
      if Lower(added[0].name) == name { GetAbsent(added[1..], name); }
    }
  }

  lemma {:induction false} WithoutKeepsOthers(headers: seq<Header>, omitted: set<string>, name: string)
    ensures Get(Without(headers, omitted), name) == if name in omitted then None else Get(headers, name)
    ensures forall h | h in Without(headers, omitted) :: h in headers
  {
    if headers != [] { WithoutKeepsOthers(headers[1..], omitted, name); }
  }

  lemma {:induction false} WithoutKeepsDistinct(headers: seq<Header>, omitted: set<string>)
    requires DistinctNames(headers)
    ensures DistinctNames(Without(headers, omitted))
  {
    if headers != [] {
      WithoutKeepsDistinct(headers[1..], omitted);
      WithoutKeepsOthers(headers[1..], omitted, "");
      var rest := Without(headers[1..], omitted);
      forall h | h in rest ensures Lower(h.name) != Lower(headers[0].name) {
        var i :| 0 <= i < |headers[1..]| && headers[1..][i] == h;
        assert headers[i + 1] == h;
      }
    }
  }

  /** Looking a header up in a new response that `kept` and then a marker were put into. */
  lemma LookupInNewResponse(default: Header, kept: seq<Header>, marker: Header, name: string)
    requires DistinctNames(kept)
    ensures Get(Set(SetAll([default], kept), marker), name) ==
      if Lower(marker.name) == name then Some(marker.value)
      else if Get(kept, name).Some? then Get(kept, name)
      else if Lower(default.name) == name then Some(default.value)
      else None
  {
    GetAfterSetAll([default], kept, name);
    GetAfterSet(SetAll([default], kept), marker, name);
    assert [default][1..] == [];
  }

  const MARKER := Header("Idempotent-Replayed", "true")

  /** The names of a list are its parts, without the blanks around them, in lower case. */
  function Listed(parts: seq<string>): string {
    if parts == [] then "" else if |parts| == 1 then parts[0] else parts[0] + "," + Listed(parts[1..])
  }

  lemma {:induction false} NamesOfParts(parts: seq<string>)
    requires parts != [] && forall part | part in parts :: ',' !in part
    ensures Names(Listed(parts), "") == set part | part in parts :: Lower(StripRight(StripLeft(part)))
    decreases |parts|
  {
    var first, rest := parts[0], parts[1..];
    assert parts == [first] + rest;
    FirstName(first, Listed(rest));
    if rest != [] {
      assert forall part | part in rest :: part in parts;
      assert (first + ",") + Listed(rest) == Listed(parts);
      NamesOfParts(rest);
    }
  }

  lemma FirstName(first: string, rest: string)
    requires ',' !in first
    ensures Names(first, "") == {Lower(StripRight(StripLeft(first)))}
    ensures Names(first + "," + rest, "") == {Lower(StripRight(StripLeft(first)))} + Names(rest, "")
  {
    NamesUpToComma("", first, "");
    assert first + "" == first && "" + first == first;
    NamesUpToComma("", first, "," + rest);
    assert first + ("," + rest) == first + "," + rest && ("," + rest)[1..] == rest;
  }

  lemma {:induction false} NamesUpToComma(word: string, first: string, rest: string)
    requires ',' !in first
    ensures Names(first + rest, word) == Names(rest, word + first)
    decreases |first|
  {
    if first == "" {
      assert first + rest == rest && word + first == word;
    } else {
      assert (first + rest)[1..] == first[1..] + rest && (word + [first[0]]) + first[1..] == word + first;
      NamesUpToComma(word + [first[0]], first[1..], rest);
    }
  }

  lemma {:induction false} LowerIsByLetter(s: string)
    ensures |Lower(s)| == |s|
    ensures forall i | 0 <= i < |s| :: Lower(s)[i] == if 'A' <= s[i] <= 'Z' then (s[i] as int + 32) as char else s[i]
    decreases |s|
  {
    if s != "" { LowerIsByLetter(s[1..]); }
  }

  /** The space around a name is no part of it. */
  lemma {:induction false} SpaceIsStripped(before: string, name: string, after: string)
    requires forall c | c in before + after ::
      || c == ' ' || c == '\t' || c == '\n' || c == '\U{b}' || c == '\U{c}' || c == '\r'
      || '\U{1c}' <= c <= '\U{1f}' || c == '\U{85}' || c == '\U{a0}'
    requires name != "" && '!' <= name[0] <= '~' && '!' <= name[|name| - 1] <= '~'
    ensures StripRight(StripLeft(before + name + after)) == name
    decreases |before| + |after|
  {
    var all := before + name + after;
    if before != [] {
      assert before[0] in before + after && all[0] == before[0] && all[1..] == before[1..] + name + after;
      assert forall c | c in before[1..] + after :: c in before + after;
      SpaceIsStripped(before[1..], name, after);
    } else if after != [] {
      var front := after[..|after| - 1];
      assert after[|after| - 1] in before + after && all[|all| - 1] == after[|after| - 1] && all[0] == name[0];
      assert all[..|all| - 1] == before + name + front && (before + name + front)[0] == name[0];
      assert forall c | c in before + front :: c in before + after;
      SpaceIsStripped(before, name, front);
    } else {
      assert all == name;
    }
  }

  /** Cookies, credentials for proxies, framing and what names the request itself are never replayed. */
  lemma NeverReplayed(body: Body, name: string)
    requires DistinctNames(body.headers)
    requires name in {"set-cookie", "connection", "keep-alive", "proxy-authenticate", "proxy-authorization", "te",
                      "trailer", "transfer-encoding", "upgrade", "x-request-id", "traceparent", "tracestate"}
    ensures Get(Replay(Stored(body)).headers, name) == None
  {
    ReplayShowsTheOriginal(body, name);
    LowerIsByLetter(MARKER.name);
    LowerIsByLetter(DEFAULT_TYPE.name);
    assert name in HOP_BY_HOP;
  }

  lemma OmittedByDefault(headers: seq<Header>)
    requires Get(headers, "connection") == None
    ensures Omitted(headers) == {
      "set-cookie", "connection", "keep-alive", "proxy-authenticate", "proxy-authorization", "te", "trailer",
      "transfer-encoding", "upgrade", "x-request-id", "traceparent", "tracestate", "idempotent-replayed"
    } + {""}
  {
    assert Names("", "") == {""};
  }

  /** Everything else is: where the original has no `Connection` header, only these names are left out. */
  lemma OthersAreReplayed(body: Body, name: string)
    requires DistinctNames(body.headers) && Get(body.headers, "connection") == None
    requires name !in {
      "set-cookie", "connection", "keep-alive", "proxy-authenticate", "proxy-authorization", "te", "trailer",
      "transfer-encoding", "upgrade", "x-request-id", "traceparent", "tracestate", "idempotent-replayed"
    } + {""}
    ensures Get(body.headers, name).Some? && name != Lower(MARKER.name) ==>
      Get(Replay(Stored(body)).headers, name) == Get(body.headers, name)
  {
    OmittedByDefault(body.headers);
    ReplayShowsTheOriginal(body, name);
  }

  /** A response that had no content type is replayed with the one a new response has. */
  lemma UntypedIsReplayedAsHtml(body: Body)
    requires DistinctNames(body.headers) && Get(body.headers, Lower("Content-Type")) == None
    ensures Get(Replay(Stored(body)).headers, Lower("Content-Type")) == Some("text/html; charset=utf-8")
  {
    LowerIsByLetter(MARKER.name);
    LowerIsByLetter(DEFAULT_TYPE.name);
    ReplayShowsTheOriginal(body, Lower(DEFAULT_TYPE.name));
  }

  /** No header is replayed either that the original named in its `Connection` header. */
  lemma ConnectionNamesAreNotReplayed(body: Body, parts: seq<string>, part: string)
    requires DistinctNames(body.headers) && Get(body.headers, "connection") == Some(Listed(parts))
    requires part in parts && forall part | part in parts :: ',' !in part
    ensures var name, shown := Lower(StripRight(StripLeft(part))), Replay(Stored(body)).headers;
      name != Lower(MARKER.name) && name != Lower(DEFAULT_TYPE.name) ==> Get(shown, name) == None
  {
    NamesOfParts(parts);
    ReplayShowsTheOriginal(body, Lower(StripRight(StripLeft(part))));
  }

  /** A replay shows the original status and body and, header by header, the original value:
      hop-by-hop, connection-named and per-request headers excepted, the replay marker added,
      and a default content type where the original had none. */
  lemma ReplayShowsTheOriginal(body: Body, name: string)
    requires DistinctNames(body.headers)
    ensures Replay(Stored(body)).status == body.status && Replay(Stored(body)).content == body.content
    ensures Get(Replay(Stored(body)).headers, name) ==
      if name == Lower(MARKER.name) then Some("true")
      else if name !in Omitted(body.headers) && Get(body.headers, name).Some? then Get(body.headers, name)
      else if name == Lower(DEFAULT_TYPE.name) then Some(DEFAULT_TYPE.value)
      else None
  {
    var omitted := Omitted(body.headers);
    WithoutKeepsOthers(body.headers, omitted, name);
    WithoutKeepsDistinct(body.headers, omitted);
    LookupInNewResponse(DEFAULT_TYPE, Without(body.headers, omitted), MARKER, name);
  }
}
