# Client report generator (open/closed example) in Dafny

This project models the client-report pipeline of `src/solid/open-closed.ts`:

- `Client`: a mutable record with a name and an address, with setters and getters.
- `ClientsData`: the list of clients to report on. It starts empty and only grows, by `add`, in insertion order.
- Two report generators behind one interface. `ReportDataGenerator` writes one plain-text line per client. `ReportGeneratorHTML` writes a fixed HTML header, one table row per client and a fixed footer.
- `Report.save`: generates the report once and hands it to the file writer.

Each generator keeps a reference to the `ClientsData` it was built with. `Generate` therefore reports the list, and each client's fields, as they are at the moment of the call.

Layout:

- `client.dfy` (module `Clients`): class `Client`; datatype `ClientView`, the (name, address) value a client shows through its getters; `Snapshot`, the views of a list of clients.
- `clients_data.dfy` (module `ClientsStore`): class `ClientsData` over a `seq<Client>` field.
- `report_spec.dfy` (module `ReportSpec`): the reports as pure functions of the clients' views, and the lemmas about them. Both formats are instances of `Fragments(vs, f)`, the in-order concatenation of `f(v)` over the list.
- `generators.dfy` (module `Generators`): the two generator classes, whose `Generate` methods are the source's `forEach` loops with `+=`. Also the interface as a datatype with `Text` and `Html` variants, `Save`, and the sample script at the end of the source file.

Neither `Generate` method has a `modifies` clause. So Dafny checks that generating a report changes neither the list nor any client.

## Model

| member | source | states |
|---|---|---|
| `Clients.Client.constructor` | src/solid/open-closed.ts:92 | A new client's getters return the name and address it was built with. |
| `Clients.Client.SetName` | src/solid/open-closed.ts:94-96 | Only the name changes. `GetName` then returns the new name, and `GetAddress` returns the old address. |
| `Clients.Client.SetAddress` | src/solid/open-closed.ts:98-100 | Only the address changes. `GetAddress` then returns the new address, and `GetName` returns the old name. |
| `Clients.Client.GetName` | src/solid/open-closed.ts:102-104 | Returns the name the client currently stores. |
| `Clients.Client.GetAddress` | src/solid/open-closed.ts:106-108 | Returns the address the client currently stores. |
| `Clients.Snapshot` | src/solid/open-closed.ts:44-45 | The values the getters return for a list of clients: one per client, in list order, position by position. |
| `Clients.SnapshotAppend` | src/solid/open-closed.ts:16-19 | Appending a client to a list appends its current values at the end of the list's snapshot. |
| `ClientsStore.ClientsData.constructor` | src/solid/open-closed.ts:12-14 | A new list is empty. |
| `ClientsStore.ClientsData.Add` | src/solid/open-closed.ts:16-19 | The list grows by one and the new last element is the added client. Every earlier element is unchanged, and the clients themselves are not touched. |
| `ClientsStore.ClientsData.GetAll` | src/solid/open-closed.ts:21-23 | Returns exactly the clients added so far, in the order they were added. |
| `ReportSpec.FragmentsAppend` | src/solid/open-closed.ts:44-46 | Adding one more entry appends exactly that entry's fragment to the concatenation. |
| `ReportSpec.FragmentsConcat` | src/solid/open-closed.ts:44-46 | The fragments of two lists joined together are the first list's fragments followed by the second list's. |
| `ReportSpec.FragmentsAt` | src/solid/open-closed.ts:44-46 | Entry k's fragment comes right after the fragments of the first k entries and right before those of the rest, so order is preserved. |
| `ReportSpec.FragmentsOfTwo` | src/solid/open-closed.ts:44-46 | For a list of two entries, the output is the first entry's fragment followed by the second's. |
| `ReportSpec.TextReportAppend` | src/solid/open-closed.ts:45 | After one more client is added, the text report is the old report followed by `"Name: " + name + " Address: " + address + "\n"`. |
| `ReportSpec.NewlineCountConcat` | src/solid/open-closed.ts:45 | The line terminators of a concatenation are those of the two parts added together. |
| `ReportSpec.NewlineCountNone` | src/solid/open-closed.ts:45 | A string that holds no `"\n"` has no line terminators. |
| `ReportSpec.TextLineIsOneLine` | src/solid/open-closed.ts:45 | If a client's fields hold no line break, its text fragment holds exactly one `"\n"`, and that `"\n"` is the last character. |
| `ReportSpec.TextReportLineCount` | src/solid/open-closed.ts:43-47 | If no field holds a line break, the text report has exactly one line per client. For an empty list that means zero lines. |
| `ReportSpec.TextReportNthLine` | src/solid/open-closed.ts:44-46 | If no field holds a line break, the report up to client k's line is exactly the text report of the first k clients. That prefix holds exactly k line terminators, and client k's line follows it. So client k's line is line k of the report. |
| `ReportSpec.HtmlReportAppend` | src/solid/open-closed.ts:62-64 | After one more client is added, the HTML report has that client's `<tr><td>name</td><td>address</td></tr>` row inserted right before the footer. |
| `ReportSpec.HtmlReportFrame` | src/solid/open-closed.ts:61-65 | Every HTML report starts with the fixed `<html>…<tbody>` header and ends with the fixed `</tbody></table></body></html>` footer. Between them are exactly the concatenated rows, which is nothing for an empty list. |
| `ReportSpec.HtmlReportNthRow` | src/solid/open-closed.ts:61-64 | The report up to client k's row is exactly the header followed by the rows of the first k clients, and client k's row comes right after. |
| `Generators.ReportDataGenerator.constructor` | src/solid/open-closed.ts:40 | The generator keeps a reference to the list it was given. |
| `Generators.ReportDataGenerator.Generate` | src/solid/open-closed.ts:42-48 | The loop returns the text report of the list's current contents and current client fields, and it is `""` for an empty list. Its invariant: the accumulated string is the report of the clients processed so far. |
| `Generators.ReportGeneratorHTML.constructor` | src/solid/open-closed.ts:58 | The generator keeps a reference to the list it was given. |
| `Generators.ReportGeneratorHTML.Generate` | src/solid/open-closed.ts:60-67 | The loop returns the HTML report of the list's current contents, and it is exactly header plus footer for an empty list. Its invariant: the accumulated string is the header followed by the rows of the clients processed so far. |
| `Generators.HtmlRowsAppend` | src/solid/open-closed.ts:62-64 | One more client in the list adds exactly that client's current row after the rows of the others. |
| `Generators.ReportGenerator.Generate` | src/solid/open-closed.ts:31-33 | Calling `generate` through the interface gives the chosen variant's report of the current list. |
| `Generators.Save` | src/solid/open-closed.ts:74-88 | Generates the report once and hands the writer exactly that report and the given path. |
| `Generators.SampleLine1` | src/solid/open-closed.ts:45 | The text line of ("Client 1", "Prueba address") is `"Name: Client 1 Address: Prueba address\n"`. |
| `Generators.SampleLine2` | src/solid/open-closed.ts:45 | The text line of ("Client 2", "Prueba address 2") is `"Name: Client 2 Address: Prueba address 2\n"`. |
| `Generators.SampleRow1` | src/solid/open-closed.ts:63 | The HTML row of ("Client 1", "Prueba address") is `"<tr><td>Client 1</td><td>Prueba address</td></tr>"`. |
| `Generators.SampleRow2` | src/solid/open-closed.ts:63 | The HTML row of ("Client 2", "Prueba address 2") is `"<tr><td>Client 2</td><td>Prueba address 2</td></tr>"`. |
| `Generators.SampleTextReport` | src/solid/open-closed.ts:43-47 | The text report of the two sample clients is exactly their two lines, in order. |
| `Generators.SampleHtmlReport` | src/solid/open-closed.ts:61-65 | The HTML report of the two sample clients is the header, then their two rows in order, then the footer. |
| `Generators.SampleData` | src/solid/open-closed.ts:111-116 | The sample list holds ("Client 1", "Prueba address") and then ("Client 2", "Prueba address 2"). |
| `Generators.SampleScript` | src/solid/open-closed.ts:111-126 | The sample script builds both generators over the sample list but generates only once, inside `save`. It asks for `report.html` to be written with the header, the two sample rows in order, and the footer. |
| `Generators.SampleTextGenerate` | src/solid/open-closed.ts:118-121 | The plain-text generator the script builds would return exactly `"Name: Client 1 Address: Prueba address\nName: Client 2 Address: Prueba address 2\n"`. The script never makes this call, because line 121 is commented out. |

## Left out

- Generators.Save: the write itself is left out. Node's asynchronous `fs.writeFile`, its error callback and the `console.log`/`console.time`/`console.timeEnd` progress and timing output are all left out. `Save` returns the request it hands to the writer, the path and the content, and says nothing about whether the write succeeds.
- `getAll` returns the live internal array in the source. The model returns the list's current sequence value. It does not model a caller that changes the list through the returned array.
- The interface is closed over its two implementations (a datatype with `Text` and `Html` variants). Further implementations added elsewhere, the "open for extension" part of the design, are not modelled.
- Strings are sequences of characters. The model does not capture JavaScript's UTF-16 code units, or the template-literal conversion of non-string values, which cannot occur because every field is a string.
- HTML escaping: names and addresses are placed into the table cells raw, as in the source. The model keeps this behaviour and does not add escaping.
- ReportSpec.TextReportLineCount and ReportSpec.TextReportNthLine: "one line per client" holds only when no name or address contains `"\n"`, so both lemmas assume that. The source does not check it, and a field holding a line break produces extra lines.
- Generators.SampleTextGenerate: this is the call at line 121, which the script leaves commented out. It is modelled only to state what the unused text generator would produce. The script itself writes nothing but the HTML report.
