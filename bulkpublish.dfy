/** The bulk-publish endpoint: it checks the posted item list, and when a
    webhook address is configured it posts one payload per item to the
    webhook, in order, pausing between calls, and reports a per-item result
    list with success and failure counts. */
module BulkPublish {
  import opened Wrappers
  import opened Text
  import opened Spreadsheet

  /** The `items` member of the posted JSON body: falsy or absent, some
      non-array value, or an array of item records. */
  datatype ItemsField = Falsy | NotArray | ArrayOf(items: seq<RawRow>)

  /** The request: either reading its body throws (with the thrown error's
      `message`, possibly undefined), or it yields an `items` member. */
  datatype Request = Malformed(message: Option<string>) | Body(items: ItemsField)

  /** What the i-th webhook call gives: an HTTP reply with its status and
      body text, or a thrown error (from `fetch` or from reading the body). */
  datatype Outcome = Reply(status: nat, text: string) | Thrown(message: Option<string>)

  /** `response.ok`: a status in the range 200 to 299. */
  predicate IsOk(o: Outcome) {
    o.Reply? && 200 <= o.status <= 299
  }

  /** The JSON payload posted for one item. `None` is a key the JSON text
      leaves out for `title`, `subtitle`, `text` and `target_phone` (the
      item had no such field), and an explicit `null` for `image_url`,
      `cta_text` and `cta_link`. */
  datatype Payload = Payload(
    title: Option<string>,
    subtitle: Option<string>,
    text: Option<string>,
    image_url: Option<string>,
    target_phone: Option<string>,
    cta_text: Option<string>,
    cta_link: Option<string>,
    source: string,
    timestamp: string)

  /** One entry of `results`; `index` and `target` are absent in the
      entries of the not-configured answer. */
  datatype ItemResult = ItemResult(
    index: Option<nat>,
    success: bool,
    error: Option<string>,
    target: Option<string>)

  datatype ReplyBody =
    | Failure(error: string)
    | Skipped(message: string, results: seq<ItemResult>)
    | Summary(message: string, total: nat, success: nat, failures: nat, results: seq<ItemResult>)

  datatype Response = Response(status: nat, body: ReplyBody)

  const NoItemsError: string := "No items provided"
  const DefaultError: string := "Failed to publish items"
  const NotConfiguredMessage: string := "Webhook not configured"
  const NotConfiguredError: string := "Webhook URL not configured"
  const Source: string := "spreadsheet_import"

  /** The payload for `item`, stamped with `timestamp`. */
  function MakePayload(item: RawRow, timestamp: string): (p: Payload)
    ensures p.image_url.Some? ==> Truthy(p.image_url)
  {
    Payload(item.titulo, item.subtitulo, item.texto,
      if Truthy(item.image_url) then item.image_url else None,
      item.target_phone, None, None, Source, timestamp)
  }

  /** The result entry for item `i` once its call gave `o`. */
  function ResultFor(item: RawRow, i: nat, o: Outcome): (r: ItemResult)
    ensures r.index == Some(i) && r.target == item.target_phone
    ensures r.success <==> IsOk(o)
    ensures r.success ==> r.error.None?
  {
    match o
    case Reply(status, text) =>
      if 200 <= status <= 299 then ItemResult(Some(i), true, None, item.target_phone)
      else ItemResult(Some(i), false,
        Some("Webhook returned " + NatToString(status) + ": " + text), item.target_phone)
    case Thrown(message) => ItemResult(Some(i), false, message, item.target_phone)
  }

  /** The results of the first `n` items, item `k` answered by `webhook(k)`. */
  function Results(items: seq<RawRow>, webhook: nat -> Outcome, n: nat): (rs: seq<ItemResult>)
    requires n <= |items|
    ensures |rs| == n
  {
    if n == 0 then [] else Results(items, webhook, n - 1) + [ResultFor(items[n - 1], n - 1, webhook(n - 1))]
  }

  /** The payloads posted for the first `n` items. */
  function Payloads(items: seq<RawRow>, stamp: nat -> string, n: nat): (ps: seq<Payload>)
    requires n <= |items|
    ensures |ps| == n
  {
    if n == 0 then [] else Payloads(items, stamp, n - 1) + [MakePayload(items[n - 1], stamp(n - 1))]
  }

  /** The pauses taken after the first `i` calls of `n`: one after each call
      that is not the last and did not throw. */
  function Delays(webhook: nat -> Outcome, n: nat, i: nat): (d: nat)
    ensures d <= i
  {
    if i == 0 then 0
    else Delays(webhook, n, i - 1) + (if i - 1 < n - 1 && webhook(i - 1).Reply? then 1 else 0)
  }

  /** `results.filter(r => r.success).length` and the converse. */
  function CountSuccess(rs: seq<ItemResult>): (c: nat)
    ensures c <= |rs|
  {
    if rs == [] then 0 else CountSuccess(rs[..|rs| - 1]) + (if rs[|rs| - 1].success then 1 else 0)
  }

  function CountFailure(rs: seq<ItemResult>): (c: nat)
    ensures c <= |rs|
  {
    if rs == [] then 0 else CountFailure(rs[..|rs| - 1]) + (if rs[|rs| - 1].success then 0 else 1)
  }

  /** The number of calls among the first `n` that came back ok. */
  function OkCalls(webhook: nat -> Outcome, n: nat): nat {
    if n == 0 then 0 else OkCalls(webhook, n - 1) + (if IsOk(webhook(n - 1)) then 1 else 0)
  }

  function SummaryMessage(s: nat, f: nat): string {
    "Enviados: " + NatToString(s) + " sucesso, " + NatToString(f) + " falhas"
  }

  /** The answer when no webhook is configured: one failed entry per item. */
  function Unconfigured(n: nat): (rs: seq<ItemResult>)
    ensures |rs| == n
    ensures forall k :: 0 <= k < n ==> rs[k] == ItemResult(None, false, Some(NotConfiguredError), None)
  {
    if n == 0 then [] else Unconfigured(n - 1) + [ItemResult(None, false, Some(NotConfiguredError), None)]
  }

  /** The `POST` handler. `webhook(i)` is what the i-th call gives and
      `stamp(i)` the clock reading when its payload is built; the method
      returns the response, the payloads posted in order, and the number of
      500 ms pauses taken. */
  method Post(req: Request, url: Option<string>, webhook: nat -> Outcome, stamp: nat -> string)
    returns (resp: Response, sent: seq<Payload>, delays: nat)
    ensures req.Malformed? ==>
      resp == Response(500, Failure(Or(req.message, DefaultError))) && sent == [] && delays == 0
    ensures req.Body? && (req.items.Falsy? || req.items.NotArray? || req.items.items == []) ==>
      resp == Response(400, Failure(NoItemsError)) && sent == [] && delays == 0
    ensures req.Body? && req.items.ArrayOf? && req.items.items != [] && !Truthy(url) ==>
      resp == Response(200, Skipped(NotConfiguredMessage, Unconfigured(|req.items.items|)))
      && sent == [] && delays == 0
    ensures req.Body? && req.items.ArrayOf? && req.items.items != [] && Truthy(url) ==>
      var items := req.items.items;
      var n := |items|;
      var rs := Results(items, webhook, n);
      && resp == Response(200, Summary(SummaryMessage(CountSuccess(rs), CountFailure(rs)),
                                       n, CountSuccess(rs), CountFailure(rs), rs))
      && sent == Payloads(items, stamp, n)
      && delays == Delays(webhook, n, n)
  {
    sent, delays := [], 0;
    if req.Malformed? {
      return Response(500, Failure(Or(req.message, DefaultError))), sent, delays;
    }
    if req.items.Falsy? || req.items.NotArray? || |req.items.items| == 0 {
      return Response(400, Failure(NoItemsError)), sent, delays;
    }
    var items := req.items.items;
    if !Truthy(url) {
      return Response(200, Skipped(NotConfiguredMessage, Unconfigured(|items|))), sent, delays;
    }
    var results: seq<ItemResult> := [];
    var i := 0;
    while i < |items|
      invariant 0 <= i <= |items|
      invariant results == Results(items, webhook, i)
      invariant sent == Payloads(items, stamp, i)
      invariant delays == Delays(webhook, |items|, i)
    {
      var item := items[i];
      var payload := MakePayload(item, stamp(i));
      sent := sent + [payload];
      var response := webhook(i);
      results := results + [ResultFor(item, i, response)];
      assert Delays(webhook, |items|, i + 1)
        == Delays(webhook, |items|, i) + (if i < |items| - 1 && response.Reply? then 1 else 0);
      match response {
        case Reply(_, _) =>
          if i < |items| - 1 {
            delays := delays + 1;
          }
        case Thrown(_) =>
      }
      i := i + 1;
    }
    var successCount := CountSuccess(results);
    var failureCount := CountFailure(results);
    resp := Response(200, Summary(SummaryMessage(successCount, failureCount),
                                  |items|, successCount, failureCount, results));
  }

  /** Every result is counted once: successes and failures add up to the
      number of entries. */
  lemma {:induction false} CountsAddUp(rs: seq<ItemResult>)
    ensures CountSuccess(rs) + CountFailure(rs) == |rs|
  {
    if rs != [] {
      CountsAddUp(rs[..|rs| - 1]);
    }
  }

  /** The success count is the number of calls that came back ok. */
  lemma {:induction false} SuccessesAreOkCalls(items: seq<RawRow>, webhook: nat -> Outcome, n: nat)
    requires n <= |items|
    ensures CountSuccess(Results(items, webhook, n)) == OkCalls(webhook, n)
  {
    if n > 0 {
      var rs := Results(items, webhook, n);
      assert rs[..n - 1] == Results(items, webhook, n - 1);
      SuccessesAreOkCalls(items, webhook, n - 1);
    }
  }

  /** Entry `k` of the results belongs to item `k`: it carries its index and
      target phone, succeeds exactly when the call came back ok, and
      otherwise names the HTTP status and body or the thrown message. */
  lemma {:induction false} ResultsSpec(items: seq<RawRow>, webhook: nat -> Outcome, n: nat)
    requires n <= |items|
    ensures forall k :: 0 <= k < n ==> Results(items, webhook, n)[k] == ResultFor(items[k], k, webhook(k))
  {
    if n > 0 {
      ResultsSpec(items, webhook, n - 1);
    }
  }

  /** Failed entries explain themselves: a non-ok reply gives
      `Webhook returned <status>: <body>`, a thrown error its message. */
  lemma FailureText(item: RawRow, i: nat, o: Outcome)
    ensures o.Reply? && !IsOk(o) ==>
      ResultFor(item, i, o).error == Some("Webhook returned " + NatToString(o.status) + ": " + o.text)
    ensures o.Thrown? ==> ResultFor(item, i, o).error == o.message
  {
  }

  /** Payload `k` is built from item `k` and the k-th clock reading. */
  lemma {:induction false} PayloadsSpec(items: seq<RawRow>, stamp: nat -> string, n: nat)
    requires n <= |items|
    ensures forall k :: 0 <= k < n ==>
      var p := Payloads(items, stamp, n)[k];
      && p.title == items[k].titulo && p.subtitle == items[k].subtitulo && p.text == items[k].texto
      && p.target_phone == items[k].target_phone
      && p.cta_text.None? && p.cta_link.None?
      && p.source == Source && p.timestamp == stamp(k)
      && (p.image_url.None? <==> items[k].image_url.None? || items[k].image_url.value == "")
      && (p.image_url.Some? ==> p.image_url == items[k].image_url)
  {
    if n > 0 {
      PayloadsSpec(items, stamp, n - 1);
    }
  }

  /** There are at most `n - 1` pauses for `n` items, exactly `n - 1` when
      no call throws, and none after the last call. */
  lemma {:induction false} DelayBound(webhook: nat -> Outcome, n: nat, i: nat)
    requires 0 < n && i <= n
    ensures Delays(webhook, n, i) <= i && Delays(webhook, n, i) <= n - 1
    ensures Delays(webhook, n, n) == Delays(webhook, n, n - 1)
    ensures (forall k :: 0 <= k < i ==> webhook(k).Reply?) ==>
              Delays(webhook, n, i) == if i == n then n - 1 else i
  {
    if i > 0 {
      DelayBound(webhook, n, i - 1);
    }
  }

  /** When every call comes back ok, every item is reported as sent. */
  lemma AllOkSummary(items: seq<RawRow>, webhook: nat -> Outcome)
    requires forall k :: 0 <= k < |items| ==> IsOk(webhook(k))
    ensures CountSuccess(Results(items, webhook, |items|)) == |items|
    ensures CountFailure(Results(items, webhook, |items|)) == 0
  {
    AllOkCalls(webhook, |items|);
    SuccessesAreOkCalls(items, webhook, |items|);
    CountsAddUp(Results(items, webhook, |items|));
  }

  lemma {:induction false} AllOkCalls(webhook: nat -> Outcome, n: nat)
    requires forall k :: 0 <= k < n ==> IsOk(webhook(k))
    ensures OkCalls(webhook, n) == n
  {
    if n > 0 {
      AllOkCalls(webhook, n - 1);
    }
  }
}
