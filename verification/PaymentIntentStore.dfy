/** Payment intents with their two indexes: by service and reference, and by service and idempotency key. */
module PaymentIntentStore {
  import opened Strings

  /** What an intent is created with. The fingerprint is that in its metadata, empty if there is none. */
  datatype Core = Core(
    id: string, serviceCode: string, reference: string, amount: real, currency: string, idempotencyKey: string,
    fingerprint: string)

  /** What updates change. */
  datatype Progress = Progress(
    status: string, coreSubmission: string, providerResponse: string, webhookDelivery: string, coreResult: string)

  datatype Intent = Intent(core: Core, progress: Progress)

  /** An empty key or fingerprint stands for an absent one; `metadataFingerprint` is what the caller's own
      metadata holds under that name. */
  datatype CreateInput = CreateInput(
    serviceCode: string, reference: string, amount: real, currency: string,
    idempotencyKey: string, fingerprint: string, metadataFingerprint: string)

  datatype IntentError = IdempotencyMismatch | NotFound
  datatype Outcome = Returned(intent: Intent) | Failed(error: IntentError)

  datatype Patch =
    | Processing
    | SubmittedToCore(response: string)
    | CoreSubmissionFailed(error: string)
    | ProviderResponse(response: string, status: string)
    | WebhookDelivery(delivery: string)
    | CoreEvent(result: string, status: string)

  function Patched(p: Progress, patch: Patch): Progress {
    match patch
    case Processing => p.(status := "processing")
    case SubmittedToCore(response) => p.(status := "submitted_to_core", coreSubmission := response)
    case CoreSubmissionFailed(error) => p.(status := "failed", coreSubmission := error)
    case ProviderResponse(response, status) => p.(status := status, providerResponse := response)
    case WebhookDelivery(delivery) => p.(webhookDelivery := delivery)
    case CoreEvent(result, status) => p.(status := status, coreResult := result)
  }

  function IndexKey(serviceCode: string, name: string): string {
    serviceCode + ":" + name
  }

  function NewIntent(input: CreateInput, id: string): Intent {
    Intent(
      Core(id, input.serviceCode, input.reference, input.amount, Upper(input.currency), Trim(input.idempotencyKey),
           if input.fingerprint != "" then input.fingerprint else input.metadataFingerprint),
      Progress("requires_confirmation", "", "", "", ""))
  }

  predicate Mismatch(input: CreateInput, existing: Intent) {
    input.fingerprint != "" && existing.core.fingerprint != "" && input.fingerprint != existing.core.fingerprint
  }

  datatype Book = Book(intents: map<string, Intent>, byReference: map<string, string>, byKey: map<string, string>) {

    function Get(serviceCode: string, id: string): Outcome {
      if id !in intents || intents[id].core.serviceCode != serviceCode then Failed(NotFound) else Returned(intents[id])
    }

    predicate KeyBound(input: CreateInput) {
      Trim(input.idempotencyKey) != "" && IndexKey(input.serviceCode, Trim(input.idempotencyKey)) in byKey
    }

    function ByKey(input: CreateInput): Outcome
      requires KeyBound(input)
    {
      var existing := Get(input.serviceCode, byKey[IndexKey(input.serviceCode, Trim(input.idempotencyKey))]);
      if existing.Returned? && Mismatch(input, existing.intent) then Failed(IdempotencyMismatch) else existing
    }

    function Create(input: CreateInput, freshId: string): (Book, Outcome) {
      var key := Trim(input.idempotencyKey);
      var referenceKey := IndexKey(input.serviceCode, input.reference);
      if KeyBound(input) then (this, ByKey(input))
      else if referenceKey in byReference then (this, Get(input.serviceCode, byReference[referenceKey]))
      else
        var intent := NewIntent(input, freshId);
        (Book(intents[freshId := intent], byReference[referenceKey := freshId],
              if key != "" then byKey[IndexKey(input.serviceCode, key) := freshId] else byKey),
         Returned(intent))
    }

    /** The caller's copy of an intent, which may be out of date, is patched and stored under its id. */
    function Update(copy: Intent, patch: Patch): Book {
      this.(intents := intents[copy.core.id := copy.(progress := Patched(copy.progress, patch))])
    }
  }

  class Store {
    var intents: map<string, Intent>
    var serviceReferenceIndex: map<string, string>
    var serviceIdempotencyIndex: map<string, string>

    constructor ()
      ensures View() == Book(map[], map[], map[])
    {
      intents, serviceReferenceIndex, serviceIdempotencyIndex := map[], map[], map[];
    }

    ghost function View(): Book
      reads this
    {
      Book(intents, serviceReferenceIndex, serviceIdempotencyIndex)
    }

    method GetIntent(serviceCode: string, id: string) returns (r: Outcome)
      ensures r == View().Get(serviceCode, id)
    {
      if id !in intents || intents[id].core.serviceCode != serviceCode { return Failed(NotFound); }
      r := Returned(intents[id]);
    }

    method CreateIntent(input: CreateInput, freshId: string) returns (r: Outcome)
      requires freshId !in intents
      modifies this
      ensures (View(), r) == old(View()).Create(input, freshId)
    {
      var key := Trim(input.idempotencyKey);
      if key != "" {
        var indexKey := IndexKey(input.serviceCode, key);
        if indexKey in serviceIdempotencyIndex {
          r := GetIntent(input.serviceCode, serviceIdempotencyIndex[indexKey]);
          if r.Returned? && Mismatch(input, r.intent) { return Failed(IdempotencyMismatch); }
          return;
        }
      }
      var referenceKey := IndexKey(input.serviceCode, input.reference);
      if referenceKey in serviceReferenceIndex {
        r := GetIntent(input.serviceCode, serviceReferenceIndex[referenceKey]);
        return;
      }
      var intent := NewIntent(input, freshId);
      intents := intents[freshId := intent];
      serviceReferenceIndex := serviceReferenceIndex[referenceKey := freshId];
      if key != "" { serviceIdempotencyIndex := serviceIdempotencyIndex[IndexKey(input.serviceCode, key) := freshId]; }
      r := Returned(intent);
    }

    method Update(copy: Intent, patch: Patch) returns (updated: Intent)
      modifies this`intents
      ensures View() == old(View()).Update(copy, patch)
      ensures updated == copy.(progress := Patched(copy.progress, patch))
    {
      updated := copy.(progress := Patched(copy.progress, patch));
      intents := intents[copy.core.id := updated];
    }
  }
}
