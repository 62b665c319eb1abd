# Hardware-event JSON encoder

This project models the hand-written JSON encoder of the `hwevent`
package: `WriteJSON`, `WriteDataJSON`, and the three nested writers
`writeJSONData`, `writeJSONRedfishEvent` and `writeJSONEventRecord`. They
serialize the hardware-event envelope in four layers:

- the CloudEvents-like `Event` envelope;
- the versioned `Data` wrapper;
- the Redfish event document;
- each of the document's event records.

Each layer writes onto one shared jsoniter stream. Each has its own field
order, its own rules for leaving out unset fields, and its own required
fields. The first missing required field aborts the encode with an error.

The model has three parts:

- `JsonStream` (json_stream.dfy) holds the stream as a class whose `buf`
  each write call appends one chunk to: `{`, `}`, `[`, `]`, `,`, a field
  name, a string, an integer or a raw blob. It also holds a reference JSON
  value type, `Json`, and its serializer `Serialize`, which separates
  members and items by exactly one comma.
- `HwEvent` (event_marshal.dfy) holds the data types, one imperative
  method per encoder (each makes the same write calls in the same order),
  and a function per encoder giving the stream contents and the error that
  encoder returns. Each method is proved against its function.
  - Contents written before an error stay in the stream.
  - Errors are a datatype. Wrapping errors keep their cause:
    `WritingData` for `error writing data: %w` and `WritingEvent(i, _)`
    for `error writing Event[%d]: %w`.
  - `Message` gives each error's text.
- `HwEventProps` (event_marshal_props.dfy) relates those functions to
  independent descriptions. Errors are compared with the required fields
  each layer checks, in the order it checks them. Successful outputs are
  compared with the reference serialization of a JSON value that holds
  exactly the fields that are set.

The code has three quirks, and the model reproduces and proves each one:

- With a nil content type the envelope attributes are skipped, and the
  output starts `{,"data":`.
- The Redfish `Oem` blob is written with no separator after it.
- The records inside `Events` are written back to back with no comma.

So a complete document is written as its reference serialization exactly
when it has no `Oem` and at most one record. `RedfishWellFormed` proves
this in both directions. The reference serialization copies raw blobs
verbatim, so this is a statement about separators and field order, not
about the blobs being valid JSON.

Where the code departs from the contract intended for it (a required,
non-empty version and `Events`, and a separator between any two fields),
the model follows the code:

- `version` is never checked, and an empty one is written as is.
- An empty `Events` slice is accepted and written as `[]`. Only a nil one
  is rejected.
- `Oem` gets no separator.
- The error texts are those of the code, for example "data version is not
  set".

## Model

| member | source | states |
|---|---|---|
| HwEvent.WriteJSON | vendor/github.com/redhat-cne/sdk-go/pkg/hwevent/event_marshal.go:27-90 | on a fresh stream, the envelope encoder leaves exactly the contents and returns exactly the error that `EventOut` gives |
| HwEvent.WriteDataJSON | vendor/github.com/redhat-cne/sdk-go/pkg/hwevent/event_marshal.go:94-101 | the payload encoder on a fresh stream; contents and error are those of `DataOut` on an empty stream |
| HwEvent.WriteJSONData | vendor/github.com/redhat-cne/sdk-go/pkg/hwevent/event_marshal.go:102-130 | appends to the stream and returns exactly what `DataOut` gives for the stream it started from |
| HwEvent.WriteJSONRedfishEvent | vendor/github.com/redhat-cne/sdk-go/pkg/hwevent/event_marshal.go:132-218 | appends to the stream and returns exactly what `RedfishOut` gives; the `Events` loop keeps the remaining run of `EventsFrom` unchanged and stops at the first record that fails, with its index |
| HwEvent.WriteJSONEventRecord | vendor/github.com/redhat-cne/sdk-go/pkg/hwevent/event_marshal.go:220-331 | appends to the stream and returns exactly what `RecordOut` gives |
| HwEvent.WriteMessageArgs | vendor/github.com/redhat-cne/sdk-go/pkg/hwevent/event_marshal.go:258-271 | a non-nil `MessageArgs` is written as a field, `[`, the strings with a separator before every one but the first, `]` and a separator; a nil one writes nothing |
| HwEvent.WriteStrField | vendor/github.com/redhat-cne/sdk-go/pkg/hwevent/event_marshal.go:34-35 | a field name followed by its string value is appended |
| HwEvent.WriteOptString | vendor/github.com/redhat-cne/sdk-go/pkg/hwevent/event_marshal.go:139-143 | an optional string field is appended with a separator after it when non-empty, and nothing when empty |
| HwEvent.WriteSepOptString | vendor/github.com/redhat-cne/sdk-go/pkg/hwevent/event_marshal.go:53-57 | an envelope attribute is appended with a separator before it when non-empty, and nothing when empty |
| HwEvent.WriteSepOptTime | vendor/github.com/redhat-cne/sdk-go/pkg/hwevent/event_marshal.go:47-51 | `time` is appended with a separator before it when set, and nothing when nil |
| HwEvent.WriteOptRaw | vendor/github.com/redhat-cne/sdk-go/pkg/hwevent/event_marshal.go:144-151 | a non-nil raw blob is appended verbatim under its field name, followed by a separator |
| HwEvent.WriteOptRawNoSep | vendor/github.com/redhat-cne/sdk-go/pkg/hwevent/event_marshal.go:162-168 | the Redfish `Oem` blob is appended under its field name with no separator after it |
| HwEvent.RecordHead | vendor/github.com/redhat-cne/sdk-go/pkg/hwevent/event_marshal.go:227-294 | the record's optional fields and `EventGroupId` only extend what the stream already held |
| HwEvent.RedfishHead | vendor/github.com/redhat-cne/sdk-go/pkg/hwevent/event_marshal.go:139-168 | the document's fields before `@odata.type` only extend what the stream already held |
| HwEvent.Attributes | vendor/github.com/redhat-cne/sdk-go/pkg/hwevent/event_marshal.go:34-57 | the envelope attributes only extend what the stream already held |
| HwEvent.EventsFrom | vendor/github.com/redhat-cne/sdk-go/pkg/hwevent/event_marshal.go:179-183 | the only error the loop returns is `WritingEvent` at the index of a record that is still to be written |
| HwEvent.Message | vendor/github.com/redhat-cne/sdk-go/pkg/hwevent/event_marshal.go:59-318 | every error has a non-empty text, and the text of a wrapping error (`error writing data: %w`, `error writing Event[%d]: %w`) ends with its cause's text |
| HwEvent.Decimal | vendor/github.com/redhat-cne/sdk-go/pkg/hwevent/event_marshal.go:181 | the `%d` of the record index is a non-empty run of decimal digits with no leading zero |
| HwEvent.ArgsTokens | vendor/github.com/redhat-cne/sdk-go/pkg/hwevent/event_marshal.go:261-268 | n arguments are written as 2n-1 chunks (none for n = 0) |
| HwEvent.MessageArgs | vendor/github.com/redhat-cne/sdk-go/pkg/hwevent/event_marshal.go:258-271 | a nil `MessageArgs` writes nothing; a non-nil one writes its field name first, a separator last, and four chunks around the strings and their separators |
| HwEvent.RecordOut | vendor/github.com/redhat-cne/sdk-go/pkg/hwevent/event_marshal.go:220-319 | the record encoder's only errors are the EventType, MessageId and MemberId ones |
| HwEvent.RedfishOut | vendor/github.com/redhat-cne/sdk-go/pkg/hwevent/event_marshal.go:132-206 | the document encoder's only errors are `@odata.type`, `Events`, a wrapped record error, `Id` and `Name` |
| HwEvent.DataOut | vendor/github.com/redhat-cne/sdk-go/pkg/hwevent/event_marshal.go:102-118 | a nil wrapper reports the version error; a non-nil one reports only wrapped document errors |
| HwEvent.EventOut | vendor/github.com/redhat-cne/sdk-go/pkg/hwevent/event_marshal.go:27-79 | the envelope reports an unsupported content type, a nil payload, the version error, or a wrapped document error, and nothing else |
| HwEventProps.DecimalRoundTrip | vendor/github.com/redhat-cne/sdk-go/pkg/hwevent/event_marshal.go:181 | the digits `%d` writes for an index read back as that index |
| HwEventProps.WritingEventIndexShown | vendor/github.com/redhat-cne/sdk-go/pkg/hwevent/event_marshal.go:181 | two different record indices give different error texts for the same cause |
| HwEventProps.ArgsTokensShape | vendor/github.com/redhat-cne/sdk-go/pkg/hwevent/event_marshal.go:261-268 | n arguments are written as 2n-1 chunks (none for n = 0): the strings in order at the even positions and separators at the odd ones, so n-1 separators |
| HwEventProps.ArgsTokensSerialize | vendor/github.com/redhat-cne/sdk-go/pkg/hwevent/event_marshal.go:258-271 | the loop's output is the reference serialization of the array of argument strings |
| HwEventProps.FirstMissing | vendor/github.com/redhat-cne/sdk-go/pkg/hwevent/event_marshal.go:295-314 | the first missing field's error: `None` exactly when every field is set; otherwise the error of a missing field with every earlier field set |
| HwEventProps.RecordError | vendor/github.com/redhat-cne/sdk-go/pkg/hwevent/event_marshal.go:295-319 | a record reports no error exactly when it is non-nil and EventType, MessageId and MemberId are all set |
| HwEventProps.RecordErrorOrder | vendor/github.com/redhat-cne/sdk-go/pkg/hwevent/event_marshal.go:295-319 | the record encoder reports the first missing one of EventType, MessageId and MemberId, in that order; a nil record reports EventType; it succeeds exactly on complete records, whatever the stream held |
| HwEventProps.EventGroupIdAlwaysWritten | vendor/github.com/redhat-cne/sdk-go/pkg/hwevent/event_marshal.go:240-242 | every non-nil record's own output (after what the stream held) holds `EventGroupId` immediately followed by its integer value, even when the record is then rejected |
| HwEventProps.RecordWellFormed | vendor/github.com/redhat-cne/sdk-go/pkg/hwevent/event_marshal.go:220-316 | a complete record is written as the reference serialization of exactly its non-empty optional fields, `EventGroupId` and the three required fields, in source order |
| HwEventProps.RecordOutExtends | vendor/github.com/redhat-cne/sdk-go/pkg/hwevent/event_marshal.go:220-319 | the record encoder opens an object first and never takes back what it wrote, on error paths too |
| HwEventProps.EventsFromExtends | vendor/github.com/redhat-cne/sdk-go/pkg/hwevent/event_marshal.go:179-183 | the record loop only appends |
| HwEventProps.RedfishOutExtends | vendor/github.com/redhat-cne/sdk-go/pkg/hwevent/event_marshal.go:132-206 | the document encoder opens an object first and only appends, on error paths too |
| HwEventProps.RedfishTypeStays | vendor/github.com/redhat-cne/sdk-go/pkg/hwevent/event_marshal.go:169-203 | once `@odata.type` is written, everything up to it stays in the stream, whatever follows |
| HwEventProps.DataOutExtends | vendor/github.com/redhat-cne/sdk-go/pkg/hwevent/event_marshal.go:102-118 | the wrapper encoder opens an object first and only appends, on error paths too |
| HwEventProps.FirstIncomplete | vendor/github.com/redhat-cne/sdk-go/pkg/hwevent/event_marshal.go:179-183 | the index of the first record from `i` on that is not complete, with every record before it complete; `|evs|` when every record is complete |
| HwEventProps.EventsErrorFirst | vendor/github.com/redhat-cne/sdk-go/pkg/hwevent/event_marshal.go:179-183 | the loop fails exactly at the first incomplete record and reports that index with that record's own error; it succeeds when every record is complete |
| HwEventProps.EventsBackToBack | vendor/github.com/redhat-cne/sdk-go/pkg/hwevent/event_marshal.go:177-185 | with every record complete, the loop writes each record's reference serialization one after another, with nothing between them; an empty slice writes nothing |
| HwEventProps.RecordsNotCommaSeparated | vendor/github.com/redhat-cne/sdk-go/pkg/hwevent/event_marshal.go:179-183 | two or more records are never written as a comma-separated array body |
| HwEventProps.RedfishError | vendor/github.com/redhat-cne/sdk-go/pkg/hwevent/event_marshal.go:169-205 | a document reports no error exactly when it is non-nil, fully set (`@odata.type`, a non-nil `Events`, `Id`, `Name`) and every record in it is complete |
| HwEventProps.RedfishErrorOrder | vendor/github.com/redhat-cne/sdk-go/pkg/hwevent/event_marshal.go:169-205 | the document encoder's error, whatever the stream held, follows this order: `@odata.type` (also for a nil document), then a nil `Events`, then the first failing record wrapped with its index, then `Id`, then `Name` |
| HwEventProps.RedfishHeadIsSep | vendor/github.com/redhat-cne/sdk-go/pkg/hwevent/event_marshal.go:139-172 | the fields up to `@odata.type` are the set members among `@odata.context`, `Actions`, `Context` and `Description`, each followed by a separator, then `Oem` when set with no separator, then `@odata.type` and a separator |
| HwEventProps.RedfishEncoderShape | vendor/github.com/redhat-cne/sdk-go/pkg/hwevent/event_marshal.go:132-203 | a complete document, with or without `Oem`, is written as its members in order, `Oem` without a separator, and the records inside `Events` back to back |
| HwEventProps.OpenWithoutOem | vendor/github.com/redhat-cne/sdk-go/pkg/hwevent/event_marshal.go:139-177 | without `Oem`, the encoder's output up to the `Events` array is that of the reference object |
| HwEventProps.OpenWithOem | vendor/github.com/redhat-cne/sdk-go/pkg/hwevent/event_marshal.go:162-177 | with `Oem`, the encoder's output up to the `Events` array is one separator shorter than the reference object's |
| HwEventProps.RedfishWellFormed | vendor/github.com/redhat-cne/sdk-go/pkg/hwevent/event_marshal.go:132-203 | a complete document is written as its reference serialization if and only if it has no `Oem` and holds at most one record |
| HwEventProps.RedfishOemNoSeparator | vendor/github.com/redhat-cne/sdk-go/pkg/hwevent/event_marshal.go:162-172 | when `Oem` is set and `@odata.type` is too, the blob is immediately followed by the `@odata.type` field name, with no separator |
| HwEventProps.DataError | vendor/github.com/redhat-cne/sdk-go/pkg/hwevent/event_marshal.go:102-118 | a non-nil wrapper's error is always a `WritingData` wrapping |
| HwEventProps.DataErrors | vendor/github.com/redhat-cne/sdk-go/pkg/hwevent/event_marshal.go:102-118 | a nil wrapper reports the version error after writing only `{`; otherwise the document's error is reported, wrapped; success exactly when the document succeeds |
| HwEventProps.DataVersionUnchecked | vendor/github.com/redhat-cne/sdk-go/pkg/hwevent/event_marshal.go:108-109 | an empty `version` makes no difference to the outcome |
| HwEventProps.DataWellFormed | vendor/github.com/redhat-cne/sdk-go/pkg/hwevent/event_marshal.go:102-115 | a wrapper whose document serializes is written as the reference object `{"version":…,"data":…}` |
| HwEventProps.EnvelopeErrors | vendor/github.com/redhat-cne/sdk-go/pkg/hwevent/event_marshal.go:27-90 | the envelope's error follows this order: an unsupported content type, then a nil payload, then the payload's own error unwrapped; the output always starts with `{` and on success ends with `}` |
| HwEventProps.UnsupportedContentTypeStops | vendor/github.com/redhat-cne/sdk-go/pkg/hwevent/event_marshal.go:30-60 | an unsupported content type stops the encode after `{` |
| HwEventProps.NilContentType | vendor/github.com/redhat-cne/sdk-go/pkg/hwevent/event_marshal.go:30-79 | with a nil content type no attribute is written: the output starts `{,"data":`, and the payload alone decides the outcome |
| HwEventProps.AttributesAreMembers | vendor/github.com/redhat-cne/sdk-go/pkg/hwevent/event_marshal.go:34-57 | the attributes are the members `id`, `type` and `dataContentType`, then `time` when set and `dataSchema` when non-empty, comma separated |
| HwEventProps.EnvelopeWellFormed | vendor/github.com/redhat-cne/sdk-go/pkg/hwevent/event_marshal.go:27-90 | with the supported content type and a payload that serializes, the envelope is written as the reference serialization of its set attributes in order, then `data` |

## Left out

- Stream failures are not modelled, because the model's in-memory stream never fails. This covers the `stream.Error` checks after each layer and the error results of `stream.Write` for the raw blobs. So the texts "error while writing the event …", "error writing Actions" and "error writing Oem" never occur. Neither does the record encoder's "error writing Oem" for a failed `Actions` write.
- The model does not say which part of the stream reaches the `io.Writer`. `BorrowStream`/`ReturnStream` pooling, the final `Flush`, and jsoniter copying its buffer to the writer on a raw `Write` are not modelled. `WriteJSON` and `WriteDataJSON` return the stream's contents instead. The `writer` parameter the nested writers pass along unused is dropped.
- Each chunk stands for one write call. String escaping, integer digits and the byte form of the output belong to jsoniter and stay uninterpreted.
- `Time` is already rendered as a string. `time.Time.String()` is not part of this model.
- The `GetX` accessors (the `Event` and `Data` type files are not part of this model) are read as plain fields. An empty string means "not set", and a nil pointer, slice or raw message is `None`.
- The two `MarshalJSON` adapters are not modelled. They only run the two entry points into a `bytes.Buffer`.
- Raw `Actions` and `Oem` blobs are copied verbatim. Their well-formedness is not checked, just as the code does not check it.
- In the code the `Events` loop passes `&v`, which is never nil. The record encoder's nil guard is still modelled, on an `Option` argument.
- DataWellFormed and EnvelopeWellFormed: stated only for payloads whose document is written as its reference serialization (no `Oem`, at most one record). RedfishWellFormed shows that exactly these documents are.
- A nil `*Event` panics in the code at line 31, where `in.DataContentType` is read. The model's `Event` is a value and is never nil.
- `EventGroupID` is written as an unbounded integer. The model does not restrict it to Go's `int` width, because the encoder only prints it.
