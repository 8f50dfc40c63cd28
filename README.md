# IoT-Clock-RoomMonitor firmware core, modelled in Dafny

The firmware runs on an ESP32-S3 room monitor. Four sampling tasks (sound, light, BME690 air quality, SNTP time) build
sensor payloads and put them on a queue of 20. An aggregation task takes one of three message buffers from a free queue.
It opens the CBOR envelope `{"data": {"deviceId": "clock1", "sensor_data": [ … ]}}` in that buffer, encodes 15 payloads
into the envelope's array, closes it and hands the buffer to a filled queue. A sending task publishes each filled buffer
over MQTT. It zeroes the buffer and returns it to the free queue.

Beside this pipeline the model covers:
- the MQTT, Wi-Fi and SNTP connection modules (state machines with guarded transitions);
- the display grid composer and its Adafruit renderer (cell table, draw dispatch, text alignment, I²C-mux channel select);
- the wrapper class around the Bosch BME69x driver (read cursor, operating-mode memory, status and unique id);
- the ADC module (unit and channel tables, enable and calibration guards, sample filtering).

One Dafny module per source component:

| file | module | models |
|---|---|---|
| `wrappers.dfy` | `Wrappers`, `Esp` | `Option`, ESP-IDF error codes, fixed-width integer ranges and 64-bit wrap-around |
| `cbor.dfy` | `Cbor` | the RFC 8949 items the firmware writes, their encoding to bytes, a decoder, round-trip lemmas |
| `cbor_writer.dfy` | `CborWriter` | an encoder appending into a fixed byte buffer, with a sticky out-of-memory flag |
| `sensor_encoder.dfy` | `SensorEncoder` | sensor payload types and `encode_sensor_payload`, proved against a data-item function |
| `envelope.dfy` | `Envelope` | the aggregation envelope, its bytes, its decoding and its size bound |
| `producers.dfy` | `Producers` | report gating and payload construction in the four sampling tasks |
| `telemetry.dfy` | `Telemetry` | buffer pool, queues, aggregation and sending tasks, and the buffer-conservation invariant |
| `mqtt_module.dfy` | `MqttModule` | the MQTT module state, configuration setters, handler table and event handling |
| `wifi_module.dfy` | `WifiModule` | the Wi-Fi module, AP and station states, and the reconnect counter |
| `sntp_module.dfy` | `SntpModule` | the SNTP module state and its bounded stack of servers |
| `grid_composer.dfy` | `GridComposer` | the cell table, renderer validation, draw dispatch and the descriptor check |
| `adafruit_renderer.dfy` | `AdafruitRenderer` | text alignment, figure dispatch, clear and mux-channel select as operation lists |
| `bme69x.dfy` | `Bme69x` | the `BME69x` wrapper class and the I²C transfer length checks |
| `adc_module.dfy` | `AdcModule` | the ADC unit/channel tables, device set-up and teardown, and the read loops |

Calls into ESP-IDF, FreeRTOS, the MQTT client, the BSEC library, the Bosch driver and Arduino libraries become method
parameters: each such call's result is an argument. Examples are `startResult`, `connectedInTime`, `driverResult` and
`enableResult`. A blocking wait with a time limit becomes a boolean that says whether the awaited event came in time;
a wait without one becomes the event that ends it (`raised` in `WifiModule.Module.Start`). Each task is split
at its blocking points into step methods of a class whose fields are the queues.

Two behaviours of the code a reader might not expect, which the model keeps:
- After a publish that fails with `ESP_ERR_INVALID_STATE`, the sending task calls connect once. It does not publish
  the message again (`main.cpp:952-963`).
- `adc_module_init_dev_continuous` checks only the device config and the out pointer, not the base config.
  `ContinuousArgsAsWritten` models that check; the finding below covers it.

## Model

| member | source | states |
|---|---|---|
| Cbor.BigEndian | firmware/esp32s3/components/cbor_sensor_encoder/src/cbor_sensor_encoder.c:11-15 | an argument written in k big-endian bytes has length k and reads back as the same number |
| Cbor.Head | firmware/esp32s3/components/cbor_sensor_encoder/src/cbor_sensor_encoder.c:11-15 | an item head has the size its argument needs, and its first byte carries the major type in its top three bits |
| Cbor.HeadRoundTrip | firmware/esp32s3/components/cbor_sensor_encoder/src/cbor_sensor_encoder.c:11-15 | decoding a head gives back the major type, the argument and the bytes after it |
| Cbor.Encode | firmware/esp32s3/components/cbor_sensor_encoder/src/cbor_sensor_encoder.c:3-62 | every encoded item is non-empty and never starts with the break code |
| Cbor.DecodeEncode | firmware/esp32s3/components/cbor_sensor_encoder/src/cbor_sensor_encoder.c:3-62 | decoding the encoding of any well-formed item, followed by any bytes, gives back the item and exactly those bytes |
| Cbor.DecodeEncodeAll | firmware/esp32s3/components/cbor_sensor_encoder/src/cbor_sensor_encoder.c:20-56 | decoding n concatenated encoded items gives back the n items in order |
| Cbor.DecodeEncodeEntries | firmware/esp32s3/components/cbor_sensor_encoder/src/cbor_sensor_encoder.c:20-59 | decoding the entries of an indefinite-length map up to its break code gives back the entries in order |
| Cbor.DecodeEncodeFloat | firmware/esp32s3/components/cbor_sensor_encoder/src/cbor_sensor_encoder.c:33 | a single-precision float's 32 bits decode to the same bits |
| Cbor.DecodeEncodeText | firmware/esp32s3/components/cbor_sensor_encoder/src/cbor_sensor_encoder.c:11 | a text string decodes to the same bytes |
| Cbor.EncodeEntriesSnoc | firmware/esp32s3/components/cbor_sensor_encoder/src/cbor_sensor_encoder.c:20-56 | appending one entry to a map appends exactly that entry's key and value bytes |
| Cbor.EncodeAllSnoc | firmware/esp32s3/main/main.cpp:920-925 | appending one item to an array's contents appends exactly that item's bytes |
| CborWriter.Writer.constructor | firmware/esp32s3/main/main.cpp:907 | a fresh encoder over the message buffer has written nothing and has no out-of-memory condition |
| CborWriter.Writer.Init | firmware/esp32s3/main/main.cpp:907 | re-initialising the encoder over a buffer leaves nothing written and no out-of-memory condition |
| CborWriter.Writer.Written | firmware/esp32s3/main/main.cpp:931-932 | the bytes in the buffer are a prefix of everything requested, with the length the encoder reports |
| CborWriter.Writer.Append | firmware/esp32s3/components/cbor_sensor_encoder/src/cbor_sensor_encoder.c:7-59 | bytes are written exactly when no earlier write overflowed and they fit; otherwise the out-of-memory flag is set, stays set and nothing is written |
| CborWriter.Writer.EncodeUint | firmware/esp32s3/components/cbor_sensor_encoder/src/cbor_sensor_encoder.c:13-15 | requests the encoding of the unsigned integer and succeeds exactly when it fits |
| CborWriter.Writer.EncodeInt | firmware/esp32s3/components/cbor_sensor_encoder/src/cbor_sensor_encoder.c:36-39 | requests the encoding of the signed 64-bit integer, as major type 0 or 1 |
| CborWriter.Writer.EncodeTextStringz | firmware/esp32s3/components/cbor_sensor_encoder/src/cbor_sensor_encoder.c:11 | requests the encoding of the text string |
| CborWriter.Writer.EncodeFloat | firmware/esp32s3/components/cbor_sensor_encoder/src/cbor_sensor_encoder.c:33 | requests the encoding of the float's bits |
| CborWriter.Writer.EncodeBoolean | firmware/esp32s3/components/cbor_sensor_encoder/src/cbor_sensor_encoder.c:48 | requests the encoding of true or false |
| CborWriter.Writer.EncodeNull | firmware/esp32s3/components/cbor_sensor_encoder/src/cbor_sensor_encoder.c:51 | requests the encoding of null |
| CborWriter.Writer.CreateIndefiniteMap | firmware/esp32s3/components/cbor_sensor_encoder/src/cbor_sensor_encoder.c:7-9 | requests the indefinite-map start byte; it fails exactly when an earlier write overflowed or the buffer is full |
| CborWriter.Writer.CreateArray | firmware/esp32s3/main/main.cpp:918 | requests the head of a definite-length array of n items |
| CborWriter.Writer.CloseIndefinite | firmware/esp32s3/components/cbor_sensor_encoder/src/cbor_sensor_encoder.c:58-59 | requests the break code |
| CborWriter.IntItem | firmware/esp32s3/components/cbor_sensor_encoder/src/cbor_sensor_encoder.c:36-39 | a signed value becomes an unsigned or negative integer item whose value is the same number |
| SensorEncoder.ValueI | firmware/esp32s3/components/cbor_sensor_encoder/src/cbor_sensor_encoder.c:36-39 | reading the value union as `int64_t` gives the signed number congruent to the stored 64 bits |
| SensorEncoder.ValueItem | firmware/esp32s3/components/cbor_sensor_encoder/src/cbor_sensor_encoder.c:31-53 | every field value, whatever its type tag, becomes a well-formed item |
| SensorEncoder.FieldEntries | firmware/esp32s3/components/cbor_sensor_encoder/src/cbor_sensor_encoder.c:20-56 | the fields map has exactly `field_count` entries |
| SensorEncoder.PayloadItem | firmware/esp32s3/components/cbor_sensor_encoder/src/cbor_sensor_encoder.c:7-59 | the payload map of an encodable payload is a well-formed item |
| SensorEncoder.EncodeValue | firmware/esp32s3/components/cbor_sensor_encoder/src/cbor_sensor_encoder.c:31-53 | requests exactly the encoding of the field's value item for its tag |
| SensorEncoder.EncodeField | firmware/esp32s3/components/cbor_sensor_encoder/src/cbor_sensor_encoder.c:21-53 | requests the field's name followed by its value |
| SensorEncoder.EncodeFields | firmware/esp32s3/components/cbor_sensor_encoder/src/cbor_sensor_encoder.c:20-56 | the loop requests the entries of all `field_count` fields, in index order |
| SensorEncoder.EncodeSensorPayload | firmware/esp32s3/components/cbor_sensor_encoder/src/cbor_sensor_encoder.c:3-62 | returns `ESP_FAIL` exactly when opening the payload map fails, leaving only that byte requested; otherwise `ESP_OK`, with exactly the payload's map requested |
| SensorEncoder.ValueReadingOfField | firmware/esp32s3/components/cbor_sensor_encoder/src/cbor_sensor_encoder.c:31-53 | reading a value item back gives float bits for FLOAT, `value.i` for INT and LONG_INT, `value.u` for UINT and LONG_UINT, a boolean for BOOL and null for any other tag |
| SensorEncoder.ReadFieldsOfPayload | firmware/esp32s3/components/cbor_sensor_encoder/src/cbor_sensor_encoder.c:20-56 | reading the fields map back gives the name and reading of each field, in index order |
| SensorEncoder.ReadPayloadItem | firmware/esp32s3/components/cbor_sensor_encoder/src/cbor_sensor_encoder.c:7-18 | reading the payload map back gives the sensor name, the timestamp and the field readings, under the keys "sensor", "timestamp", "fields" |
| SensorEncoder.DecodePayload | firmware/esp32s3/components/cbor_sensor_encoder/src/cbor_sensor_encoder.c:3-62 | the payload's bytes decode to its item, and that item reads back as the payload's report |
| SensorEncoder.ValueEncodingSize | firmware/esp32s3/components/cbor_sensor_encoder/src/cbor_sensor_encoder.c:31-53 | the encoded size of each value is given by its tag and magnitude |
| SensorEncoder.FieldEntriesSize | firmware/esp32s3/components/cbor_sensor_encoder/src/cbor_sensor_encoder.c:20-56 | the size of the first n encoded field entries is the sum of their sizes |
| SensorEncoder.PayloadEncodingSize | firmware/esp32s3/components/cbor_sensor_encoder/src/cbor_sensor_encoder.c:3-62 | a payload's encoded size is given by its name length, its timestamp and its fields |
| SensorEncoder.FieldsSizeBound | firmware/esp32s3/components/cbor_sensor_encoder/include/cbor_sensor_encoder_defs.h:14 | each field whose name fits in 16 bytes encodes in at most 25 bytes |
| SensorEncoder.PayloadSizeBound | firmware/esp32s3/components/cbor_sensor_encoder/include/cbor_sensor_encoder_defs.h:13-15 | any payload with at most 5 fields and names within their buffers encodes within a fixed maximum size |
| Envelope.DataItem | firmware/esp32s3/main/main.cpp:911-918 | the inner map holding the device id and the array is a well-formed item |
| Envelope.Reports | firmware/esp32s3/main/main.cpp:920-925 | there is one report per payload received |
| Envelope.Items | firmware/esp32s3/main/main.cpp:920-925 | the array holds one well-formed item per payload |
| Envelope.EnvelopeItem | firmware/esp32s3/main/main.cpp:907-929 | the envelope of at most 15 payloads is a well-formed item |
| Envelope.EnvelopeHeadEncoding | firmware/esp32s3/main/main.cpp:907-918 | the 36 bytes written before the first payload are the outer map start, "data", the inner map start, "deviceId", "clock1", "sensor_data" and the head of an array of 15 |
| Envelope.EnvelopeEncoding | firmware/esp32s3/main/main.cpp:907-929 | the envelope of 15 payloads encodes as the fixed head, the payloads' encodings in order and two break codes |
| Envelope.ItemsSnoc | firmware/esp32s3/main/main.cpp:920-925 | receiving one more payload appends exactly that payload's encoding to the array's contents |
| Envelope.BatchBytesItems | firmware/esp32s3/main/main.cpp:920-925 | the bytes built up payload by payload equal the encoding of the array's items |
| Envelope.CarriesSnoc | firmware/esp32s3/main/main.cpp:920-925 | the relation between received payloads and encoded bytes is kept by each received payload |
| Envelope.CarriesEnvelope | firmware/esp32s3/main/main.cpp:907-932 | after 15 payloads, the head, their bytes and two break codes are the envelope of those payloads in dequeue order |
| Envelope.ReadReportsOfBatch | firmware/esp32s3/main/main.cpp:920-925 | reading the array back gives the payloads' reports in dequeue order |
| Envelope.DecodeEnvelope | firmware/esp32s3/main/main.cpp:907-932 | a sealed message decodes completely to its envelope, which reads back as device "clock1" and the payloads' reports |
| Envelope.ItemsSizeBound | firmware/esp32s3/main/main.cpp:920-925 | if each payload encodes in at most b bytes, the array's contents take at most b times the count |
| Envelope.EnvelopeSizeBound | firmware/esp32s3/main/main.cpp:931-932 | the envelope of 15 payloads of at most b bytes takes at most 38 + 15·b bytes |
| Producers.ReportDue | firmware/esp32s3/main/main.cpp:619-620 | the report gate as the tasks write it, in unsigned 64-bit arithmetic (definition; see ReportDueElapsed) |
| Producers.ReportDueElapsed | firmware/esp32s3/main/main.cpp:619-620 | the report gate is the unsigned 64-bit difference `curr − prev ≥ period`, which wraps when the timer is behind `prev` |
| Producers.NoReportTwiceAtOnce | firmware/esp32s3/main/main.cpp:619-620 | with a positive period, a task that has just reported does not report again at the same instant |
| Producers.LumSplit | firmware/esp32s3/main/main.cpp:677-678 | the infrared and full-spectrum halves recombine to the 32-bit luminosity |
| Producers.LumSplitUnique | firmware/esp32s3/main/main.cpp:677-678 | the split is the only pair of 16-bit halves that recombines to the luminosity |
| Producers.SntpSeconds | firmware/esp32s3/main/main.cpp:874 | the reported seconds are the whole seconds of the UTC timestamp in microseconds |
| Producers.StoreFloat | firmware/esp32s3/main/main.cpp:627 | storing a float into the value union replaces the low 32 bits and keeps the upper 32 |
| Producers.SoundPayload | firmware/esp32s3/main/main.cpp:622-644 | the sound report keeps the sensor name, takes the timestamp, carries 4 fields and leaves the fifth slot as it was |
| Producers.SoundPayloadReport | firmware/esp32s3/main/main.cpp:622-644 | the sound payload is encodable and reads back as rms_max_sound, rms_min_sound, rms_sound and win_s = 4, with the report timestamp |
| Producers.TslPayload | firmware/esp32s3/main/main.cpp:692-715 | the light report keeps the sensor name, takes the timestamp, carries 4 fields and leaves the fifth slot as it was |
| Producers.TslPayloadReport | firmware/esp32s3/main/main.cpp:692-715 | the light payload is encodable and reads back as max_lux, min_lux, lux and win_s = 43200 |
| Producers.SntpPayload | firmware/esp32s3/main/main.cpp:871-878 | the time report carries one field, leaves the other slots as they were, and its field holds the whole seconds of its timestamp |
| Producers.SntpPayloadReport | firmware/esp32s3/main/main.cpp:871-878 | the SNTP payload is encodable and reads back as one field sntp_time holding the UTC seconds |
| Producers.ReportedOutputs | firmware/esp32s3/main/main.cpp:760-806 | every output kept is a temperature, humidity, pressure or IAQ output taken from the input, and no more are kept than were given |
| Producers.ReportedOutputsPrefix | firmware/esp32s3/main/main.cpp:760-806 | the outputs kept from a prefix of the list are a prefix of those kept from the whole list |
| Producers.BsecFields | firmware/esp32s3/main/main.cpp:760-806 | the payload keeps its five field slots |
| Producers.CollectBsecFields | firmware/esp32s3/main/main.cpp:760-808 | the loop's `field_index` is the number of kept outputs capped at 5, and the fields are the ones the reference definition `BsecFields` gives |
| Producers.FloatFieldsSize | firmware/esp32s3/main/main.cpp:760-806 | float fields with names of at most 5 characters encode in at most 11 bytes each |
| Producers.BmePayload | firmware/esp32s3/main/main.cpp:756-811 | the BME690 report keeps the name and the timestamp, carries at most five fields and no more than the outputs given, and leaves the slots past its count as they were |
| Producers.BmePayloadReport | firmware/esp32s3/main/main.cpp:756-811 | the BME690 payload is encodable and reads back as the first five kept outputs, under the names temp, humid, press and iaq |
| Producers.SoundTask.constructor | firmware/esp32s3/main/main.cpp:575-594 | the sound task starts from its payload named "sound_sens" with no earlier report |
| Producers.TslTask.constructor | firmware/esp32s3/main/main.cpp:660-671 | the light task starts from its payload named "tsl2591" with no earlier report |
| Producers.BmeTask.constructor | firmware/esp32s3/main/main.cpp:731-744 | the BME690 task starts from its payload named "bme690", with no earlier report and the given period |
| Producers.SntpTask.constructor | firmware/esp32s3/main/main.cpp:850-860 | the SNTP task starts from its payload named "sntp" with no earlier report |
| Producers.SoundTask.Step | firmware/esp32s3/main/main.cpp:619-646 | when the report is due the producer records the time and sends the sound payload; otherwise it sends nothing and keeps its state |
| Producers.TslTask.Step | firmware/esp32s3/main/main.cpp:690-717 | when the report is due the producer records the time and sends the light payload; otherwise it sends nothing |
| Producers.BmeTask.Step | firmware/esp32s3/main/main.cpp:754-821 | with no outputs nothing changes; otherwise the fields are collected, and the payload is sent only when the report is due and at least one field was set |
| Producers.SntpTask.Step | firmware/esp32s3/main/main.cpp:868-880 | when the report is due the producer records the time and sends the SNTP payload; otherwise it sends nothing |
| Telemetry.EncodablesAll | firmware/esp32s3/main/main.cpp:257 | the queue invariant that every queued payload is encodable is the same as every element being encodable |
| Telemetry.PartialBatchFits | firmware/esp32s3/main/main.cpp:113-116 | a partly filled envelope of producer payloads always fits in the 2457-byte buffer |
| Telemetry.ProducerBatchFits | firmware/esp32s3/main/main.cpp:95-98 | the envelope of 15 producer payloads takes at most 38 + 15 × the largest producer payload, which is less than 2457 bytes |
| Telemetry.Circulates | firmware/esp32s3/main/main.cpp:263-269 | the buffer-conservation invariant: the free queue, the filled queue and the two tasks hold three pointers between them, one to each of the three buffers (definition; kept by TakeFree, PushFilled, TakeFilled and PushFree and by every Pipeline method through Valid) |
| Telemetry.Placement | firmware/esp32s3/main/main.cpp:936-940 | a buffer held by the aggregator or the sender is in neither queue, so the push that follows has room |
| Telemetry.TakeFree | firmware/esp32s3/main/main.cpp:904 | taking the head of the free queue keeps the three buffers circulating |
| Telemetry.PushFilled | firmware/esp32s3/main/main.cpp:936 | handing the closed buffer to the filled queue keeps the three buffers circulating |
| Telemetry.TakeFilled | firmware/esp32s3/main/main.cpp:950 | taking the head of the filled queue keeps the three buffers circulating |
| Telemetry.PushFree | firmware/esp32s3/main/main.cpp:963 | returning the sender's buffer to the free queue keeps the three buffers circulating |
| Telemetry.Message.constructor | firmware/esp32s3/main/main.cpp:163 | each static message buffer has 2457 zero bytes |
| Telemetry.Pipeline.constructor | firmware/esp32s3/main/main.cpp:263-269 | at start-up all three buffers are in the free queue, in order, and the filled and payload queues are empty |
| Telemetry.Pipeline.Produce | firmware/esp32s3/main/main.cpp:646 | a payload joins the aggregation queue exactly when it has fewer than 20 entries |
| Telemetry.Pipeline.WriteHeader | firmware/esp32s3/main/main.cpp:907-918 | the buffer then holds exactly the envelope head |
| Telemetry.Pipeline.AggregatorTake | firmware/esp32s3/main/main.cpp:904 | the aggregator takes the free queue's head exactly when the queue is not empty |
| Telemetry.Pipeline.Open | firmware/esp32s3/main/main.cpp:907-918 | the taken buffer holds the envelope head, with no payload yet |
| Telemetry.Pipeline.Dequeue | firmware/esp32s3/main/main.cpp:921 | removes the head of the aggregation queue |
| Telemetry.Pipeline.Append | firmware/esp32s3/main/main.cpp:922-924 | on success the count grows by one and the payload joins the batch; on failure the aggregator stops, still holding its buffer, with the batch unchanged |
| Telemetry.Pipeline.Receive | firmware/esp32s3/main/main.cpp:920-925 | dequeues one payload and appends it to the batch, or stops on an encoding failure |
| Telemetry.Pipeline.Close | firmware/esp32s3/main/main.cpp:927-932 | the closed buffer holds, with its length, the envelope of exactly the received payloads in dequeue order |
| Telemetry.Pipeline.Seal | firmware/esp32s3/main/main.cpp:936-940 | the closed buffer joins the filled queue; the push always has room |
| Telemetry.Pipeline.AggregatorRun | firmware/esp32s3/main/main.cpp:920-940 | the loop receives queued payloads in order, never more than 15 in total; after 15 the buffer is sealed with exactly that batch |
| Telemetry.Pipeline.SenderTake | firmware/esp32s3/main/main.cpp:950 | the sender takes the filled queue's head exactly when the queue is not empty |
| Telemetry.Pipeline.SenderPublish | firmware/esp32s3/main/main.cpp:950-964 | the held buffer is published with the message length, and whatever the result the zeroed buffer goes back to the free queue |
| Telemetry.Pipeline.Recycle | firmware/esp32s3/main/main.cpp:961-963 | the held buffer is zeroed and returned to the free queue, which has room |
| Telemetry.CloseEnvelope | firmware/esp32s3/main/main.cpp:927-932 | the length recorded is what the encoder wrote; when everything fits, the message is the requested bytes followed by two break codes |
| Telemetry.Clear | firmware/esp32s3/main/main.cpp:961 | every byte of the buffer is zero |
| Telemetry.Transmit | firmware/esp32s3/main/main.cpp:951-959 | the message buffer, taken with the message length, goes to `DATA_OUT_TOPIC` exactly when the module is connected and the id is valid; on `INVALID_STATE` connect is called once, and the message is not sent again |
| MqttModule.StateValue | firmware/esp32s3/components/mqtt_module/include/mqtt_module_defs.h:31-43 | the module states have the enum's values −4 to 6 |
| MqttModule.StateOfValue | firmware/esp32s3/components/mqtt_module/include/mqtt_module_defs.h:31-43 | exactly the values −4 to 6 name a state, and that state's value is the one given |
| MqttModule.StateValueRoundTrip | firmware/esp32s3/components/mqtt_module/include/mqtt_module_defs.h:31-43 | converting a state to its value and back gives the same state |
| MqttModule.ConnackValue | firmware/esp32s3/components/mqtt_module/src/mqtt_module.c:641 | the CONNACK return codes of section 3.2.2.3 of MQTT 3.1.1 are 0 to 5 |
| MqttModule.ConnackCastNamesReason | firmware/esp32s3/components/mqtt_module/src/mqtt_module.c:647-650 | casting a refusal code to the state enum gives the matching refusal state, never CONNECTED |
| MqttModule.Update | firmware/esp32s3/components/mqtt_module/src/mqtt_module.c:412-478 | storing a handler changes that slot and no other |
| MqttModule.DefaultHandlers | firmware/esp32s3/components/mqtt_module/src/mqtt_module.c:66-72 | init installs the module's own handler in every slot except the status slot |
| MqttModule.RegistrableSlot | firmware/esp32s3/components/mqtt_module/src/mqtt_module.c:412-444 | only the DATA, PUBLISH, SUBSCRIBE, DELETED and CUSTOM events name a slot a caller may set, never the connection, error or status slot |
| MqttModule.SlotOf | firmware/esp32s3/components/mqtt_module/src/mqtt_module.c:501-548 | the event dispatcher routes connected, disconnected and before-connect events to the connection slot, errors to the error slot and unknown ids to the custom slot |
| MqttModule.StoredVerification | firmware/esp32s3/components/mqtt_module/src/mqtt_module.c:280-296 | the stored verification settings are the ones given |
| MqttModule.StoredVerificationAsWritten | firmware/esp32s3/components/mqtt_module/src/mqtt_module.c:280-296 | the stored skip-common-name flag is whether ALPN protocols were given; every other setting is copied |
| MqttModule.VerificationFlagLost | firmware/esp32s3/components/mqtt_module/src/mqtt_module.c:292 | a request to skip the check with no ALPN list is stored as not skipping, and the reverse |
| MqttModule.Module.constructor | firmware/esp32s3/components/mqtt_module/src/mqtt_module.c:63-78 | a new module is DISCONNECTED with no connected bit, default handlers and a zeroed config |
| MqttModule.Module.GetStatus | firmware/esp32s3/components/mqtt_module/src/mqtt_module.c:481-483 | returns the module's state |
| MqttModule.Module.AwaitConnected | firmware/esp32s3/components/mqtt_module/src/mqtt_module.c:120-129 | the wait succeeds exactly when the connected bit is set or arrives in time; otherwise the client is stopped and `CONNECT_FAILED` is returned |
| MqttModule.Module.Connect | firmware/esp32s3/components/mqtt_module/src/mqtt_module.c:115-130 | refused with `INVALID_STATE` while CONNECTED; a client start error is returned unchanged; otherwise the result is that of the wait |
| MqttModule.Module.ConnectWithCred | firmware/esp32s3/components/mqtt_module/src/mqtt_module.c:132-152 | a missing username or password gives `INVALID_ARG`, CONNECTED gives `INVALID_STATE`; otherwise the credentials are stored, then set and connect as in `Connect` |
| MqttModule.Module.ConnectWithUri | firmware/esp32s3/components/mqtt_module/src/mqtt_module.c:154-173 | a missing URI gives `INVALID_ARG`, CONNECTED gives `INVALID_STATE`; otherwise the URI is stored, then set and connect as in `Connect` |
| MqttModule.Module.Reconnect | firmware/esp32s3/components/mqtt_module/src/mqtt_module.c:176-189 | a reconnect error is returned unchanged; otherwise the result is that of the wait |
| MqttModule.Module.Disconnect | firmware/esp32s3/components/mqtt_module/src/mqtt_module.c:192-203 | refused unless CONNECTED; a successful client disconnect leaves the module DISCONNECTED |
| MqttModule.Module.Publish | firmware/esp32s3/components/mqtt_module/src/mqtt_module.c:206-216 | succeeds if and only if topic and payload are given, the module is CONNECTED and the client's id is not negative, and then hands over `payload_len` bytes of the payload, or for a length of 0 the bytes before its first zero byte; each failure has its own code |
| MqttModule.Taken | firmware/esp32s3/components/mqtt_module/src/mqtt_module.c:213 | the bytes taken are a prefix of the payload: `len` of them, or the zero-free C string when `len` is 0 |
| MqttModule.PublishLengthRule | firmware/esp32s3/components/mqtt_module/src/mqtt_module.c:213 | of `A`, 0, `B` a length of 3 takes all three bytes and a length of 0 only `A` |
| MqttModule.Module.Enqueue | firmware/esp32s3/components/mqtt_module/src/mqtt_module.c:218-227 | the same guards as publish, with `ENQUEUE_FAILED` for a negative id; the length passed is 0, so the client is handed the payload only up to its first zero byte |
| MqttModule.CStringOf | firmware/esp32s3/components/mqtt_module/src/mqtt_module.c:224 | the bytes `strlen` measures: a prefix of the payload with no zero byte, followed in the payload by a zero byte or by nothing |
| MqttModule.CStringOfWhole | firmware/esp32s3/components/mqtt_module/src/mqtt_module.c:224 | a payload without a zero byte is handed over whole |
| MqttModule.EnqueueCutsAtZero | firmware/esp32s3/components/mqtt_module/src/mqtt_module.c:224 | of the payload `A`, 0, `B` only `A` is handed over |
| MqttModule.Module.Subscribe | firmware/esp32s3/components/mqtt_module/src/mqtt_module.c:230-239 | succeeds if and only if a topic is given, the module is CONNECTED and the id is not negative |
| MqttModule.Module.Unsubscribe | firmware/esp32s3/components/mqtt_module/src/mqtt_module.c:241-250 | succeeds if and only if a topic is given, the module is CONNECTED and the id is not negative |
| MqttModule.Module.SetterGuard | firmware/esp32s3/components/mqtt_module/src/mqtt_module.c:253-259 | a setter may proceed exactly when its argument is given and the module is not CONNECTED |
| MqttModule.Module.SetConfig | firmware/esp32s3/components/mqtt_module/src/mqtt_module.c:253-262 | a refused call leaves the config unchanged; otherwise the whole config is replaced and the client's result returned |
| MqttModule.Module.SetAddressCfg | firmware/esp32s3/components/mqtt_module/src/mqtt_module.c:265-278 | a refused call leaves the config unchanged; otherwise only the broker address part is replaced |
| MqttModule.Module.SetVerificationCfg | firmware/esp32s3/components/mqtt_module/src/mqtt_module.c:280-296 | a refused call leaves the config unchanged; otherwise only the verification part is replaced, with the flag as given |
| MqttModule.Module.SetCredentialsCfg | firmware/esp32s3/components/mqtt_module/src/mqtt_module.c:298-309 | a refused call leaves the config unchanged; otherwise only the credentials part is replaced |
| MqttModule.Module.SetAuthenticationCfg | firmware/esp32s3/components/mqtt_module/src/mqtt_module.c:311-328 | a refused call leaves the config unchanged; otherwise only the authentication part is replaced |
| MqttModule.Module.SetSessionCfg | firmware/esp32s3/components/mqtt_module/src/mqtt_module.c:330-343 | a refused call leaves the config unchanged; otherwise only the session part is replaced |
| MqttModule.Module.SetLastWillCfg | firmware/esp32s3/components/mqtt_module/src/mqtt_module.c:345-358 | a refused call leaves the config unchanged; otherwise only the last-will part is replaced |
| MqttModule.Module.SetNetworkCfg | firmware/esp32s3/components/mqtt_module/src/mqtt_module.c:360-374 | a refused call leaves the config unchanged; otherwise only the network part is replaced |
| MqttModule.Module.SetTaskCfg | firmware/esp32s3/components/mqtt_module/src/mqtt_module.c:376-386 | a refused call leaves the config unchanged; otherwise only the client-task part is replaced |
| MqttModule.Module.SetBufferCfg | firmware/esp32s3/components/mqtt_module/src/mqtt_module.c:388-398 | a refused call leaves the config unchanged; otherwise only the buffer part is replaced |
| MqttModule.Module.SetOutboxCfg | firmware/esp32s3/components/mqtt_module/src/mqtt_module.c:400-409 | a refused call leaves the config unchanged; otherwise only the outbox part is replaced |
| MqttModule.Module.RegisterEventHandler | firmware/esp32s3/components/mqtt_module/src/mqtt_module.c:412-444 | a registrable event's slot gets the handler and no other slot changes; any other event gives `INVALID_ARG` and leaves the table unchanged |
| MqttModule.Module.UnregisterEventHandler | firmware/esp32s3/components/mqtt_module/src/mqtt_module.c:446-478 | a registrable event's slot is cleared and no other slot changes; any other event gives `INVALID_ARG` and leaves the table unchanged |
| MqttModule.Module.OnConnectionEvent | firmware/esp32s3/components/mqtt_module/src/mqtt_module.c:553-573 | DISCONNECTED sets that state, CONNECTED sets that state and the connected bit, and any other event changes nothing |
| MqttModule.Module.OnErrorEvent | firmware/esp32s3/components/mqtt_module/src/mqtt_module.c:638-665 | a refused connection sets the state whose value is the CONNACK code, and a transport error sets TRANSPORT_ERROR; other errors change nothing |
| MqttModule.Module.HandleEvent | firmware/esp32s3/components/mqtt_module/src/mqtt_module.c:492-550 | no argument gives `INVALID_ARG`, an empty slot gives `INVALID_EVENT_HANDLER`, and a user handler's result is passed on; only the connection and error handlers change the module |
| MqttModule.Init | firmware/esp32s3/components/mqtt_module/src/mqtt_module.c:56-97 | a module is returned exactly on success, DISCONNECTED and with default handlers; each failing step gives its own error and returns nothing |
| MqttModule.Del | firmware/esp32s3/components/mqtt_module/src/mqtt_module.c:98-109 | a null module gives `INVALID_ARG`; otherwise the client is stopped and `ESP_OK` returned |
| WifiModule.InitError | firmware/esp32s3/components/wifi_module/src/wifi_module.c:126-158 | bring-up succeeds if and only if the event group is created and netif init, each handler registration and Wi-Fi init succeed; a missing event group gives `NO_MEM` |
| WifiModule.Module.constructor | firmware/esp32s3/components/wifi_module/src/wifi_module.c:50-60 | the module starts INITIAL, with AP and STA disabled, STA INITIAL and both retry counters at zero |
| WifiModule.Module.TearDown | firmware/esp32s3/components/wifi_module/src/wifi_module.c:161-175 | the error path deletes the event group, unregisters the handlers, deinitialises the driver and sets INITIAL |
| WifiModule.Module.Del | firmware/esp32s3/components/wifi_module/src/wifi_module.c:99-117 | refused with `INVALID_STATE` when INITIAL; otherwise everything is torn down and the state is INITIAL |
| WifiModule.Module.Init | firmware/esp32s3/components/wifi_module/src/wifi_module.c:119-176 | a state other than INITIAL gives `INVALID_STATE` and changes nothing; otherwise success leaves the module STOPPED and any failure tears it down to INITIAL |
| WifiModule.Module.InitAsWritten | firmware/esp32s3/components/wifi_module/src/wifi_module.c:119-176 | a state other than INITIAL gives `INVALID_STATE`, but the error path also tears the running module down to INITIAL |
| WifiModule.Module.Bringup | firmware/esp32s3/components/wifi_module/src/wifi_module.c:126-176 | from INITIAL, the result is the first failing step's, and the module ends STOPPED on success and torn down on failure |
| WifiModule.Module.Start | firmware/esp32s3/components/wifi_module/src/wifi_module.c:179-203 | refused with `INVALID_STATE` unless STOPPED with AP or STA enabled; otherwise the wait returns with a bit set (the one already set, or the one raised during the wait), the module ends RUNNING, the call returns `ESP_OK` exactly when the connected bit is set and `ESP_FAIL` otherwise, and the STA state is CONNECTED or DISCONNECTED to match |
| WifiModule.Module.Stop | firmware/esp32s3/components/wifi_module/src/wifi_module.c:205-208 | always `NOT_SUPPORTED` |
| WifiModule.Module.DisableMode | firmware/esp32s3/components/wifi_module/src/wifi_module.c:249-252 | always `NOT_SUPPORTED` |
| WifiModule.Module.EnableMode | firmware/esp32s3/components/wifi_module/src/wifi_module.c:211-247 | no config gives `INVALID_ARG`, STA twice gives `INVALID_STATE`, AP and unknown modes give `NOT_SUPPORTED`; after a successful STA init the station is enabled, and when setting the mode also succeeds it is DISCONNECTED with driver mode APSTA if AP is enabled and STA otherwise |
| WifiModule.Module.OnStaDisconnected | firmware/esp32s3/components/wifi_module/src/wifi_module.c:356-368 | a disconnect reconnects and counts the retry exactly when retries remain; otherwise it raises the error bit |
| WifiModule.Module.OnStaIpAcquired | firmware/esp32s3/components/wifi_module/src/wifi_module.c:370-378 | an IP event resets the retry counter and sets the connected bit; a missing event changes nothing |
| WifiModule.InitTwice | firmware/esp32s3/components/wifi_module/src/wifi_module.c:119-176 | a second init of a running module is refused and leaves it STOPPED, with its event group |
| WifiModule.InitTwiceAsWritten | firmware/esp32s3/components/wifi_module/src/wifi_module.c:122-124 | as written, the refused second init leaves the module INITIAL without its event group |
| WifiModule.DisconnectWithoutRetries | firmware/esp32s3/components/wifi_module/src/wifi_module.c:356-368 | since `max_retries` is never assigned and stays zero, the first disconnect raises the error bit without reconnecting |
| SntpModule.Push | firmware/esp32s3/components/sntp_module/src/sntp_module.c:118-125 | a null server gives `INVALID_ARG`, a full stack gives `ESP_FAIL`, both unchanged; otherwise the server is stored at the index, the index grows by one and no other slot changes |
| SntpModule.Pop | firmware/esp32s3/components/sntp_module/src/sntp_module.c:128-134 | an empty stack gives `ESP_FAIL`; otherwise the index drops by one, that slot is cleared and no other slot changes |
| SntpModule.PopAfterPush | firmware/esp32s3/components/sntp_module/src/sntp_module.c:118-134 | a pop after a successful push restores the index, and the whole stack when that slot was empty |
| SntpModule.PushAfterPop | firmware/esp32s3/components/sntp_module/src/sntp_module.c:118-134 | pushing back the server just popped restores the stack |
| SntpModule.Instance.constructor | firmware/esp32s3/components/sntp_module/src/sntp_module.c:11-15 | the static instance starts INVALID with an empty stack |
| SntpModule.Instance.GetState | firmware/esp32s3/components/sntp_module/src/sntp_module.c:91-93 | returns the module state |
| SntpModule.Instance.PushServer | firmware/esp32s3/components/sntp_module/src/sntp_module.c:96-98 | the instance's server array and index change as `Push` says |
| SntpModule.Instance.PopServer | firmware/esp32s3/components/sntp_module/src/sntp_module.c:100-102 | the instance's server array and index change as `Pop` says |
| SntpModule.Instance.Init | firmware/esp32s3/components/sntp_module/src/sntp_module.c:35-55 | no config gives `INVALID_ARG`, a state other than INVALID gives `INVALID_STATE`, a netif error is returned; success leaves index 1, slot 0 the server and state INITIALIZED |
| SntpModule.Instance.Del | firmware/esp32s3/components/sntp_module/src/sntp_module.c:57-67 | refused when INVALID; otherwise the state becomes INVALID |
| SntpModule.Instance.Start | firmware/esp32s3/components/sntp_module/src/sntp_module.c:70-80 | allowed only from INITIALIZED; a successful start moves to IN_PROGRESS |
| SntpModule.Instance.Stop | firmware/esp32s3/components/sntp_module/src/sntp_module.c:82-88 | a successful stop call moves to INITIALIZED from any state |
| SntpModule.Instance.SyncWait | firmware/esp32s3/components/sntp_module/src/sntp_module.c:105-111 | success sets SYNCHRONIZED; failure leaves the state unchanged |
| GridComposer.Draw | firmware/esp32s3/components/grid_composer/src/grid_composer.c:150-180 | an empty cell gives `INVALID_ARG`; clear comes first when asked; text, figure and clear go to their callbacks; it succeeds exactly when the content type is known and every callback called succeeds; a missing callback gives `ESP_FAIL`, a failed clear its own error, an unknown content type `INVALID_ARG`, and otherwise the content callback's result is returned |
| GridComposer.AcceptedAsWritten | firmware/esp32s3/components/grid_composer/src/grid_composer.c:137-140 | the draw task's descriptor check as written: the row and the column are compared only with the table's upper bounds (definition; its consequence is NegativeRowAccepted) |
| GridComposer.NegativeRowAccepted | firmware/esp32s3/components/grid_composer/src/grid_composer.c:137-140 | row −1 passes that check although it indexes outside the table |
| GridComposer.Accepted | firmware/esp32s3/components/grid_composer/src/grid_composer.c:137-140 | the corrected descriptor check: both indexes inside the table (definition; DrawUpdate draws exactly the descriptors it accepts) |
| GridComposer.AcceptedIsBoundedAsWritten | firmware/esp32s3/components/grid_composer/src/grid_composer.c:137-140 | the corrected check is the written one plus the two lower bounds |
| GridComposer.Put | firmware/esp32s3/components/grid_composer/src/grid_composer.c:190 | storing a cell changes that slot and no other |
| GridComposer.FirstFreeUnique | firmware/esp32s3/components/grid_composer/src/grid_composer.c:186-193 | there is at most one first free slot in row-major order |
| GridComposer.FirstFreeNotFull | firmware/esp32s3/components/grid_composer/src/grid_composer.c:186-197 | a table with a first free slot is not full |
| GridComposer.Composer.constructor | firmware/esp32s3/components/grid_composer/src/grid_composer.c:45-60 | the static table starts with every slot empty and no queue or task |
| GridComposer.Composer.Init | firmware/esp32s3/components/grid_composer/src/grid_composer.c:45-60 | succeeds exactly when both the draw queue and the draw task are created; otherwise `NO_MEM` |
| GridComposer.Composer.PushCell | firmware/esp32s3/components/grid_composer/src/grid_composer.c:183-198 | fills the first empty slot in row-major order and changes no other; a full table gives `NO_MEM` and stays unchanged |
| GridComposer.Composer.AddCell | firmware/esp32s3/components/grid_composer/src/grid_composer.c:106-125 | a renderer missing a callback gives `INVALID_ARG`, a failed allocation and a full table `NO_MEM`; otherwise a copy with state INITIALIZED is placed in the first free slot, and on any failure no slot changes |
| GridComposer.Composer.Del | firmware/esp32s3/components/grid_composer/src/grid_composer.c:62-92 | every slot is empty and both the queue and the draw-task handle are cleared |
| GridComposer.Composer.DrawUpdate | firmware/esp32s3/components/grid_composer/src/grid_composer.c:128-147 | a descriptor is drawn exactly when it names a cell inside the table, and then as `Draw` says; any other descriptor calls nothing |
| AdafruitRenderer.PcaMask | firmware/esp32s3/components/grid_composer/platform/esp-arduino/adafruit_renderer.cpp:155 | the mux mask for channel i has exactly one bit set, bit i |
| AdafruitRenderer.PcaSelect | firmware/esp32s3/components/grid_composer/platform/esp-arduino/adafruit_renderer.cpp:150-157 | a channel above 7 writes nothing; otherwise the one-hot mask is written once |
| AdafruitRenderer.CDiv2 | firmware/esp32s3/components/grid_composer/platform/esp-arduino/adafruit_renderer.cpp:98 | halving truncates toward zero, as in C |
| AdafruitRenderer.HAlign | firmware/esp32s3/components/grid_composer/platform/esp-arduino/adafruit_renderer.cpp:90-104 | RIGHT puts the text's end at the width, CENTER leaves equal margins to within one pixel, and LEFT, NONE and unknown values keep x |
| AdafruitRenderer.VAlign | firmware/esp32s3/components/grid_composer/platform/esp-arduino/adafruit_renderer.cpp:105-119 | TOP gives the ascent, BOTTOM the height plus the descent, CENTER half of height + ascent − descent truncated, and other values keep y |
| AdafruitRenderer.DrawText | firmware/esp32s3/components/grid_composer/platform/esp-arduino/adafruit_renderer.cpp:67-127 | a null context gives `INVALID_ARG` with nothing drawn; otherwise the mux is selected and font and colour set, and the text is drawn and shown exactly when both aligned coordinates are non-negative |
| AdafruitRenderer.DrawFigure | firmware/esp32s3/components/grid_composer/platform/esp-arduino/adafruit_renderer.cpp:11-65 | a null context gives `INVALID_ARG`, an unknown figure `INVALID_ARG` with no refresh; each known figure is drawn with its own coordinates, filled or outlined, then shown |
| AdafruitRenderer.FillKeepsGeometry | firmware/esp32s3/components/grid_composer/platform/esp-arduino/adafruit_renderer.cpp:19-58 | filled and outlined figures use the same coordinates |
| AdafruitRenderer.LineIgnoresFill | firmware/esp32s3/components/grid_composer/platform/esp-arduino/adafruit_renderer.cpp:56-58 | a line is drawn the same whether fill is asked or not |
| AdafruitRenderer.DrawFigureAsWritten | firmware/esp32s3/components/grid_composer/platform/esp-arduino/adafruit_renderer.cpp:47-55 | as written, only the outlined triangle differs, and it is drawn at the given corners exactly when x1 equals y1 |
| AdafruitRenderer.OutlinedTriangleMisplaced | firmware/esp32s3/components/grid_composer/platform/esp-arduino/adafruit_renderer.cpp:52 | the outlined triangle (0,0) (10,20) (30,0) is drawn at other coordinates, while the filled one is drawn at the given ones |
| AdafruitRenderer.Clear | firmware/esp32s3/components/grid_composer/platform/esp-arduino/adafruit_renderer.cpp:129-147 | a null context gives `INVALID_ARG`; otherwise mux select, home, clear and display in that order |
| AdafruitRenderer.RefreshOnlyOnSuccess | firmware/esp32s3/components/grid_composer/platform/esp-arduino/adafruit_renderer.cpp:11-147 | text, figure and clear refresh the display if and only if they return `ESP_OK` |
| Bme69x.Run | firmware/esp32s3/components/BME69xLibrary/src/bme69xLibrary.cpp:497-512 | k successive reads give k results |
| Bme69x.RunWalks | firmware/esp32s3/components/BME69xLibrary/src/bme69xLibrary.cpp:497-512 | successive reads walk the fields in order with the count of those left, then repeat the last field with count zero |
| Bme69x.ReadsAfterFetch | firmware/esp32s3/components/BME69xLibrary/src/bme69xLibrary.cpp:482-512 | after a fetch, the n reads return fields 0 to n−1 with n−1 to 0 left |
| Bme69x.Classify | firmware/esp32s3/components/BME69xLibrary/src/bme69xLibrary.cpp:552-560 | −1 for a negative status, 1 for a positive one, 0 for OK |
| Bme69x.Describe | firmware/esp32s3/components/BME69xLibrary/src/bme69xLibrary.cpp:565-597 | OK gives the empty string, and exactly the codes without a case give the undefined text |
| Bme69x.DescribeDistinct | firmware/esp32s3/components/BME69xLibrary/src/bme69xLibrary.cpp:565-597 | different described codes get different texts |
| Bme69x.SelfTestUndescribed | firmware/esp32s3/components/BME69xLibrary/src/bme69xLibrary.cpp:565-597 | the self-test error code has no case and gets the undefined text |
| Bme69x.UniqueId | firmware/esp32s3/components/BME69xLibrary/src/bme69xLibrary.cpp:533-542 | the id is below 2³¹; its low bytes are registers 0 and 1 and its high half is the 15 low bits of register 2 then register 3 |
| Bme69x.UniqueIdSame | firmware/esp32s3/components/BME69xLibrary/src/bme69xLibrary.cpp:538-541 | two register sets give the same id exactly when they agree on registers 0, 1, 3 and the low 7 bits of register 2 |
| Bme69x.Recorded | firmware/esp32s3/components/BME69xLibrary/src/bme69xLibrary.cpp:352-356 | the remembered mode changes only to a new non-sleep mode the driver accepted, and always does so then |
| Bme69x.MeasuredMode | firmware/esp32s3/components/BME69xLibrary/src/bme69xLibrary.cpp:342-347 | the duration is computed for the mode asked, or for the remembered mode when sleep is asked |
| Bme69x.MeasureAfterSwitch | firmware/esp32s3/components/BME69xLibrary/src/bme69xLibrary.cpp:342-356 | after an accepted switch to a mode, the sleep-mode duration is computed for that mode |
| Bme69x.RecordedKeptUnlessSwitched | firmware/esp32s3/components/BME69xLibrary/src/bme69xLibrary.cpp:352-356 | sleep or a driver error keeps the remembered mode |
| Bme69x.WritePlusOne | firmware/esp32s3/components/BME69xLibrary/src/bme69xLibrary.cpp:693 | `length + 1` in 32-bit arithmetic: one more than the length, except that the largest length wraps to 0 |
| Bme69x.I2cWrite | firmware/esp32s3/components/BME69xLibrary/src/bme69xLibrary.cpp:683-716 | a length + 1 (32-bit) above the buffer gives `COM_FAIL` with nothing sent, a missing bus gives `NULL_PTR`; otherwise the register and data are sent and the result follows the end of transmission |
| Bme69x.WriteLimitTighter | firmware/esp32s3/components/BME69xLibrary/src/bme69xLibrary.cpp:693 | every length below the buffer size passes the write check |
| Bme69x.WriteLengthWraps | firmware/esp32s3/components/BME69xLibrary/src/bme69xLibrary.cpp:693 | in 32-bit arithmetic, length 2³² − 1 wraps to 0 and passes the write check |
| Bme69x.I2cRead | firmware/esp32s3/components/BME69xLibrary/src/bme69xLibrary.cpp:721-755 | a length above the buffer gives `COM_FAIL`, a missing bus `NULL_PTR`; on success the bytes received are stored and the rest of the buffer is untouched |
| Bme69x.Sensor.constructor | firmware/esp32s3/components/BME69xLibrary/src/bme69xLibrary.cpp:203-219 | status OK, no fields, cursor 0, sleep mode, ambient 25 and every field zero |
| Bme69x.Sensor.CheckStatus | firmware/esp32s3/components/BME69xLibrary/src/bme69xLibrary.cpp:552-560 | the class of the current status |
| Bme69x.Sensor.StatusString | firmware/esp32s3/components/BME69xLibrary/src/bme69xLibrary.cpp:565-597 | the text of the current status |
| Bme69x.Sensor.SoftReset | firmware/esp32s3/components/BME69xLibrary/src/bme69xLibrary.cpp:321-330 | fields, cursor, configurations, mode and ambient temperature go back to their defaults, and the status is the driver's |
| Bme69x.Sensor.SetOpMode | firmware/esp32s3/components/BME69xLibrary/src/bme69xLibrary.cpp:352-356 | the status is the driver's and the remembered mode is updated as `Recorded` says |
| Bme69x.Sensor.GetMeasDur | firmware/esp32s3/components/BME69xLibrary/src/bme69xLibrary.cpp:342-347 | the duration is the driver's for the measured mode and the current configuration |
| Bme69x.Sensor.FetchData | firmware/esp32s3/components/BME69xLibrary/src/bme69xLibrary.cpp:482-488 | the array is exactly what the driver left in it, whichever entries it wrote, the count is the one the driver reports and the cursor returns to 0 |
| Bme69x.Sensor.GetData | firmware/esp32s3/components/BME69xLibrary/src/bme69xLibrary.cpp:493-516 | forced mode returns field 0 and 0 with the cursor unmoved; with no fields nothing is returned; otherwise one step of the read walk |
| Bme69x.Sensor.GetUniqueId | firmware/esp32s3/components/BME69xLibrary/src/bme69xLibrary.cpp:533-542 | the status is the register read's and the id is packed from the four registers |
| AdcModule.Voltage | firmware/esp32s3/components/adc_module/src/adc_module.c:196-204 | with calibration the value is the calibrated millivolts and exists exactly when calibration succeeds; without it, the scaled value |
| AdcModule.Keep | firmware/esp32s3/components/adc_module/src/adc_module.c:228-233 | the continuous filter as written: the channel range check, the unit and channel match and a successful conversion (definition; see RangeCheckRedundant and KeptFromDevice) |
| AdcModule.RangeCheckRedundant | firmware/esp32s3/components/adc_module/src/adc_module.c:228-233 | for a device channel inside the unit, the channel range check adds nothing to the unit and channel match |
| AdcModule.Kept | firmware/esp32s3/components/adc_module/src/adc_module.c:228-252 | no more samples are kept than frames were read |
| AdcModule.KeptPrefix | firmware/esp32s3/components/adc_module/src/adc_module.c:228-252 | reading fewer frames keeps a prefix of the samples |
| AdcModule.KeptFromDevice | firmware/esp32s3/components/adc_module/src/adc_module.c:228-252 | each kept sample is the voltage of a frame read from the device's own unit and channel |
| AdcModule.SetEnabled | firmware/esp32s3/components/adc_module/src/adc_module.c:517-578 | changes only the enabled flag of that channel |
| AdcModule.EnableDisableRestores | firmware/esp32s3/components/adc_module/src/adc_module.c:517-578 | enabling a disabled channel and then disabling it gives the unit back |
| AdcModule.TableEnableDisableRestores | firmware/esp32s3/components/adc_module/src/adc_module.c:106-172 | enabling a disabled channel in the unit table and then disabling it gives the whole table back |
| AdcModule.ContinuousArgsAsWritten | firmware/esp32s3/components/adc_module/src/adc_module.c:347 | the continuous init's argument check as written: the device config and the out pointer, not the base config (definition; see MissingBaseAccepted) |
| AdcModule.ContinuousArgs | firmware/esp32s3/components/adc_module/src/adc_module.c:347 | the check the oneshot init makes and the continuous one intends: all three pointers (definition; see ContinuousArgsStrengthen) |
| AdcModule.MissingBaseAccepted | firmware/esp32s3/components/adc_module/src/adc_module.c:347-350 | a call with no base config passes that check |
| AdcModule.ContinuousArgsStrengthen | firmware/esp32s3/components/adc_module/src/adc_module.c:347 | the corrected check is the written one plus the base config |
| AdcModule.Dev.constructor | firmware/esp32s3/components/adc_module/src/adc_module.c:319-331 | a new device records its config, unit and channel and is not calibrated |
| AdcModule.Adc.constructor | firmware/esp32s3/components/adc_module/src/adc_module.c:73 | every unit starts unconfigured, in the default mode, with every channel disabled |
| AdcModule.Adc.FindChannel | firmware/esp32s3/components/adc_module/src/adc_module.c:301-316 | finds the first channel, by unit then channel and skipping ADC2, that is not enabled and whose IO number is the pin; or reports that there is none |
| AdcModule.Adc.IsContConfigured | firmware/esp32s3/components/adc_module/src/adc_module.c:416-424 | true exactly when some unit is configured in continuous mode |
| AdcModule.Adc.InitUnit | firmware/esp32s3/components/adc_module/src/adc_module.c:426-481 | an unknown unit, an unknown mode or continuous mode on ADC2 gives `INVALID_ARG`, otherwise the driver's result; on success only that unit becomes configured in the mode, and on failure nothing changes |
| AdcModule.Adc.DelUnit | firmware/esp32s3/components/adc_module/src/adc_module.c:483-507 | a bad unit or the default mode gives `INVALID_ARG`; on success only that unit becomes unconfigured, in the default mode |
| AdcModule.Adc.Attach | firmware/esp32s3/components/adc_module/src/adc_module.c:319-331 | the device points at the unit and channel found, the unit takes the mode and the channel its id |
| AdcModule.Adc.InitDevOneshot | firmware/esp32s3/components/adc_module/src/adc_module.c:289-342 | missing arguments, a continuous unit already configured and no matching channel each give their error with nothing changed; past them the first matching channel is taken; a failed unit init returns its error with nothing changed; a failed allocation returns `NO_MEM` with the unit released again (or still configured when its delete fails); success configures the unit in oneshot mode, records the channel id, changes nothing else, and returns a device on that unit and channel |
| AdcModule.Adc.InitDevContinuous | firmware/esp32s3/components/adc_module/src/adc_module.c:343-414 | the same guards, with the base config checked; a failed unit init returns its error with nothing changed; a failed continuous config or allocation returns that error with the unit released again (or still configured when its delete fails); success configures the unit in continuous mode, records the channel id, changes nothing else, and returns a device with the sample frequency |
| AdcModule.Adc.ContReleased | firmware/esp32s3/components/adc_module/src/adc_module.c:406-409 | deleting the unit on the error path leaves no unit configured in continuous mode |
| AdcModule.Adc.InitDevContinuousAsWritten | firmware/esp32s3/components/adc_module/src/adc_module.c:388 | as written, a failed continuous config returns the error but leaves the unit configured in continuous mode |
| AdcModule.Adc.EnableChannel | firmware/esp32s3/components/adc_module/src/adc_module.c:517-541 | the default mode gives `INVALID_ARG`; otherwise the driver's result, and only on success the channel is enabled |
| AdcModule.Adc.DisableChannel | firmware/esp32s3/components/adc_module/src/adc_module.c:555-578 | the default mode gives `INVALID_ARG`; otherwise the driver's result, and only on success the channel is disabled |
| AdcModule.Adc.EnableDev | firmware/esp32s3/components/adc_module/src/adc_module.c:106-145 | no device gives `INVALID_ARG`, an unconfigured unit or an enabled channel `INVALID_STATE`, both with nothing changed; past those checks only the device's channel flag can change, and it is set exactly when the mode's enable succeeds; the device becomes calibrated exactly when it asks for calibration and the scheme is created; the result is the enable's error, then the calibration's, else `ESP_OK` |
| AdcModule.Adc.EnableDevAsWritten | firmware/esp32s3/components/adc_module/src/adc_module.c:114 | as written, a failed channel enable without calibration still returns `ESP_OK` with the channel disabled |
| AdcModule.Adc.DisableDev | firmware/esp32s3/components/adc_module/src/adc_module.c:147-172 | no device gives `INVALID_ARG`, an unconfigured unit or a disabled channel `INVALID_STATE`, both with nothing changed; past those checks only the device's channel flag can change, and it is cleared exactly when the mode's disable succeeds; the calibration flag is cleared exactly when the disable succeeds and the scheme is deleted; the result is the disable's error, then the delete's, else `ESP_OK` |
| AdcModule.Adc.DisableDevAsWritten | firmware/esp32s3/components/adc_module/src/adc_module.c:154 | as written, a failed channel disable without calibration still returns `ESP_OK` with the channel enabled |
| AdcModule.Adc.DelDev | firmware/esp32s3/components/adc_module/src/adc_module.c:267-277 | no device gives `INVALID_ARG`; deletion succeeds exactly when the channel is neither enabled nor calibrated |
| AdcModule.Adc.Del | firmware/esp32s3/components/adc_module/src/adc_module.c:279-287 | succeeds exactly when every configured unit is deleted, each configured unit then released and the others untouched; otherwise returns the error of the first configured unit whose delete fails, with the units before it released and it and the later ones untouched |
| AdcModule.Adc.ReadOneshot | firmware/esp32s3/components/adc_module/src/adc_module.c:186-210 | stores the voltages of the leading samples that read and convert without error, stops at the first failure and leaves the rest of the output untouched |
| AdcModule.Adc.ReadFrames | firmware/esp32s3/components/adc_module/src/adc_module.c:226-252 | writes the kept samples in frame order, at most the number asked for, and counts exactly those written |
| AdcModule.Adc.GetData | firmware/esp32s3/components/adc_module/src/adc_module.c:177-265 | null arguments or zero samples give `INVALID_ARG`, as does a unit in the default mode; oneshot returns `ESP_OK` with the leading stored samples; continuous succeeds exactly when its buffer is obtained and the read returns bytes, a buffer not obtained gives `NO_MEM`, and any other outcome after the buffer is obtained gives `TIMEOUT`; the count is never more than asked |

## Left out

- Tasks, priorities, blocking and timeouts: each task is a set of step methods, and a wait becomes an input.
  Concurrency between the tasks is not modelled; each step runs alone.
- Vendor and foreign calls are result parameters. This covers ESP-IDF Wi-Fi, netif, SNTP, event groups and queues;
  the MQTT client; the ADC driver and calibration; GPIO; Wire; Adafruit GFX and U8g2; TSL2591; BSEC; and the Bosch
  `bme69x_*` driver.
- Floating point: sound RMS, lux, BSEC signals and the ADC voltage scaling are left out. Float payload values are their
  32 stored bits, taken as inputs.
- TinyCBOR: the writer appends a whole item or nothing. TinyCBOR can write part of an item before running out of room,
  and `cbor_encoder_get_buffer_size` then reports the needed size rather than the written count. The model records only
  what was written.
- The aggregation task's drop branch, which zeroes the buffer and returns it to the free queue, is not modelled.
  `Telemetry.Pipeline.Seal` proves that the push to the filled queue always has room, so the branch is never taken.
- An encoding failure makes the aggregation task return while holding its buffer. The model counts that buffer as held
  by the stopped aggregator for good.
- Arbitrary payloads are not covered. Fifteen worst-case payloads take more than the 2457-byte buffer; only the payloads
  the four producers build are proved to fit.
- `app_main` and the `init_*` functions of main.cpp, display drawing in the producers, `mqtt_data_event_handler`, the
  subscription, published, deleted and custom default handlers (they only log), and all logging.
- The unbounded loop of each producer task: only one iteration, the report gate and the payload it builds.
- The BME69x begin and SPI paths, the heater and configuration setters and getters, and the self-test: they only pass
  values to the Bosch driver.
- `WifiModule`: the AP path is modelled only by its `NOT_SUPPORTED` result, because `wifi_init_softap` returns that
  before doing anything.
- `AdcModule.Adc.GetData`: `samples_to_read * 4` is a 32-bit product in the source. The model takes the frames read as
  an input and does not model that product's overflow.
- The grid draw queue and `grid_composer_draw` are left out, because they only hand descriptors to the FreeRTOS queue.
  The cell table's size, the number of SNTP servers and the ADC unit and channel tables are constructor parameters,
  because their constants come from headers and sdkconfig files that are not part of this model.
- The firmware targets the ESP32-S3: ADC2 is always skipped in the channel search, as the S3 build does.
- `WifiModule.Module.Start`: the event handler that runs during the wait appears only as the bit it raises. Its other
  effects (retry counter, reconnect) are those of `OnStaDisconnected` and `OnStaIpAcquired`, which are separate calls.
  Because the wait has no time limit, the source's "unexpected event" branch (`wifi_module.c:197-199`) cannot be taken
  and has no counterpart in the model.
- `GridComposer.Composer.AddCell`, `GridComposer.Composer.Del`: the composer is an object reference, so the NULL
  composer handle, which gives `INVALID_ARG` in the source, has no counterpart; a NULL renderer is modelled.
- `MqttModule.Module.Publish`, `MqttModule.Module.Enqueue`: `qos` and `retain` are passed to the client unchanged and
  are not modelled. The module is an object reference, so a NULL module handle has no counterpart; the NULL topic and
  payload cases are modelled.
- `MqttModule.Module.Publish`: a `payload_len` of 2^31 or more does not fit the client's `int` length parameter; the
  model does not follow that conversion and takes the length as given.
- `MqttModule.Module.AwaitConnected`: the connected bit is never cleared by the module, so once set a later wait always
  succeeds. The model keeps this, as the code does.

## Findings

| source | as written | input that shows it | evidently intended | confidence | as-written member | corrected member |
|---|---|---|---|---|---|---|
| firmware/esp32s3/components/grid_composer/platform/esp-arduino/adafruit_renderer.cpp:52 | the outlined triangle passes `x1` where `y1` belongs | triangle (0,0) (10,20) (30,0), fill false: drawn as (0,0) (10,10) (30,0) | outlined and filled triangles use the same corners | high, not executed | AdafruitRenderer.DrawFigureAsWritten, AdafruitRenderer.OutlinedTriangleMisplaced | AdafruitRenderer.DrawFigure, AdafruitRenderer.FillKeepsGeometry |
| firmware/esp32s3/components/grid_composer/src/grid_composer.c:137-140 | signed `cell_row`/`cell_col` are only compared against the upper bounds | descriptor with row −1, column 0 | descriptors outside the table on either side are discarded | high, not executed | GridComposer.AcceptedAsWritten, GridComposer.NegativeRowAccepted | GridComposer.Accepted, GridComposer.Composer.DrawUpdate |
| firmware/esp32s3/components/mqtt_module/src/mqtt_module.c:292 | `skip_cert_common_name_check` is assigned `alpn_protos` | skip requested, no ALPN list: stored as not skipping | the flag given is stored | high, not executed | MqttModule.StoredVerificationAsWritten, MqttModule.VerificationFlagLost | MqttModule.StoredVerification, MqttModule.Module.SetVerificationCfg |
| firmware/esp32s3/components/adc_module/src/adc_module.c:114, 154 | the results of the inner channel enable and disable are ignored | channel enable fails, no calibration: `ESP_OK` with the channel still disabled | the inner error is returned | medium, not executed | AdcModule.Adc.EnableDevAsWritten, AdcModule.Adc.DisableDevAsWritten | AdcModule.Adc.EnableDev, AdcModule.Adc.DisableDev |
| firmware/esp32s3/components/adc_module/src/adc_module.c:347 | the argument check omits `adc_base_cfg`, which is then dereferenced | `adc_base_cfg` NULL with the other two given | a NULL base config gives `INVALID_ARG` | high, not executed | AdcModule.ContinuousArgsAsWritten, AdcModule.MissingBaseAccepted | AdcModule.ContinuousArgs, AdcModule.ContinuousArgsStrengthen, AdcModule.Adc.InitDevContinuous |
| firmware/esp32s3/components/adc_module/src/adc_module.c:388 | a failed `adc_continuous_config` returns at once, skipping the error path that deletes the unit | config call fails after the unit's init succeeded | the unit is released, so a later continuous init is not refused | high, not executed | AdcModule.Adc.InitDevContinuousAsWritten | AdcModule.Adc.InitDevContinuous, AdcModule.Adc.ContReleased |
| firmware/esp32s3/components/wifi_module/src/wifi_module.c:122-124 | a refused init jumps to the error path, which tears the running module down | init, then init again | the second init is refused and the module keeps running | high, not executed | WifiModule.Module.InitAsWritten, WifiModule.InitTwiceAsWritten | WifiModule.Module.Init, WifiModule.InitTwice |
