/** The two report generators, the interface they share and the step that
    hands a generated report to the file writer. Each generator keeps the
    `ClientsData` it was built with, so it reports the list as it is when
    `Generate` is called. Neither generator has a `modifies` clause: they
    change neither the list nor any client. */
module Generators {
  import opened Clients
  import opened ClientsStore
  import opened ReportSpec

  /** Plain-text report: one "Name: ... Address: ...\n" line per client. */
  class ReportDataGenerator {
    const data: ClientsData

    constructor (data: ClientsData)
      ensures this.data == data
    {
      this.data := data;
    }

    method Generate() returns (report: string)
      ensures report == TextReport(Snapshot(data.clients))
      ensures data.clients == [] ==> report == ""
    {
      report := "";
      var all := data.GetAll();
      for i := 0 to |all|
        invariant report == TextReport(Snapshot(all[..i]))
      {
        var client := all[i];
        report := report + "Name: " + client.GetName() + " Address: " + client.GetAddress() + "\n";
        assert all[..i + 1] == all[..i] + [client];
        SnapshotAppend(all[..i], client);
        TextReportAppend(Snapshot(all[..i]), client.View());
      }
      assert all[..|all|] == all;
    }
  }

  /** HTML report: a fixed document header, one table row per client, a fixed footer. */
  class ReportGeneratorHTML {
    const data: ClientsData

    constructor (data: ClientsData)
      ensures this.data == data
    {
      this.data := data;
    }

    method Generate() returns (report: string)
      ensures report == HtmlReport(Snapshot(data.clients))
      ensures data.clients == [] ==> report == HtmlHeader + HtmlFooter
    {
      report := HtmlHeader;
      var all := data.GetAll();
      ghost var rows := "";
      for i := 0 to |all|
        invariant report == HtmlHeader + rows
        invariant rows == HtmlRows(Snapshot(all[..i]))
      {
        var client := all[i];
        var row := "<tr><td>" + client.GetName() + "</td><td>" + client.GetAddress() + "</td></tr>";
        AppendAssoc(HtmlHeader, rows, row);
        report := report + row;
        assert all[..i + 1] == all[..i] + [client];
        HtmlRowsAppend(all[..i], client);
        rows := rows + row;
      }
      report := report + HtmlFooter;
      assert all[..|all|] == all;
    }
  }

  /** One more client adds exactly its row to the rows of a list of clients. */
  lemma HtmlRowsAppend(cs: seq<Client>, c: Client)
    ensures HtmlRows(Snapshot(cs + [c])) == HtmlRows(Snapshot(cs)) + HtmlRow(c.View())
  {
    SnapshotAppend(cs, c);
    FragmentsAppend(Snapshot(cs), c.View(), HtmlRow);
  }

  /** The shared report-generator interface, with its two implementations. */
  datatype ReportGenerator = Text(text: ReportDataGenerator) | Html(html: ReportGeneratorHTML)
  {
    function Data(): (data: ClientsData)
    {
      match this
      case Text(g) => g.data
      case Html(g) => g.data
    }

    /** The report this generator yields for the current list. */
    function Expected(): (report: string)
      reads Data(), Data().clients
    {
      match this
      case Text(g) => TextReport(Snapshot(g.data.clients))
      case Html(g) => HtmlReport(Snapshot(g.data.clients))
    }

    method Generate() returns (report: string)
      ensures report == Expected()
    {
      match this
      case Text(g) => report := g.Generate();
      case Html(g) => report := g.Generate();
    }
  }

  /** What is handed to the file writer: the destination and the contents. */
  datatype WriteRequest = WriteRequest(path: string, content: string)

  /** Generates the report once and asks for it to be written to `filepath`. */
  method Save(generator: ReportGenerator, filepath: string) returns (request: WriteRequest)
    ensures request.path == filepath
    ensures request.content == generator.Expected()
  {
    var content := generator.Generate();
    request := WriteRequest(filepath, content);
  }

  /** The sample clients' values, as `Client 1` and `Client 2` show them. */
  const Sample1 := ClientView("Client 1", "Prueba address")
  const Sample2 := ClientView("Client 2", "Prueba address 2")

  lemma SampleLine1()
    ensures TextLine(Sample1) == "Name: Client 1 Address: Prueba address\n"
  {
  }

  lemma SampleLine2()
    ensures TextLine(Sample2) == "Name: Client 2 Address: Prueba address 2\n"
  {
  }

  lemma SampleRow1()
    ensures HtmlRow(Sample1) == "<tr><td>Client 1</td><td>Prueba address</td></tr>"
  {
  }

  lemma SampleRow2()
    ensures HtmlRow(Sample2) == "<tr><td>Client 2</td><td>Prueba address 2</td></tr>"
  {
  }

  /** The text report of the sample clients: their two lines, in order. */
  lemma SampleTextReport()
    ensures TextReport([Sample1, Sample2])
         == "Name: Client 1 Address: Prueba address\n" + "Name: Client 2 Address: Prueba address 2\n"
  {
    FragmentsOfTwo(Sample1, Sample2, TextLine);
    SampleLine1();
    SampleLine2();
  }

  /** The HTML report of the sample clients: header, their two rows in order, footer. */
  lemma SampleHtmlReport()
    ensures HtmlReport([Sample1, Sample2])
         == HtmlHeader
            + ("<tr><td>Client 1</td><td>Prueba address</td></tr>" + "<tr><td>Client 2</td><td>Prueba address 2</td></tr>")
            + HtmlFooter
  {
    FragmentsOfTwo(Sample1, Sample2, HtmlRow);
    SampleRow1();
    SampleRow2();
  }

  /** The sample data of the script: two clients, added in order. */
  method SampleData() returns (clientData: ClientsData)
    ensures fresh(clientData)
    ensures Snapshot(clientData.clients) == [Sample1, Sample2]
  {
    var client1 := new Client("Client 1", "Prueba address");
    var client2 := new Client("Client 2", "Prueba address 2");
    clientData := new ClientsData();
    clientData.Add(client1);
    clientData.Add(client2);
    assert clientData.clients == [client1] + [client2];
    assert [client1] == [] + [client1];
    SnapshotAppend([], client1);
    SnapshotAppend([client1], client2);
  }

  /** The sample script: it builds both generators over the sample data but
      generates only through `Save`, which asks for the HTML report to be
      written to "report.html". The text generator is never called. */
  method SampleScript() returns (request: WriteRequest)
    ensures request.path == "report.html"
    ensures request.content
         == HtmlHeader
            + ("<tr><td>Client 1</td><td>Prueba address</td></tr>" + "<tr><td>Client 2</td><td>Prueba address 2</td></tr>")
            + HtmlFooter
  {
    var clientData := SampleData();
    var reportGenerator := new ReportDataGenerator(clientData);
    var reportGeneratorHtml := new ReportGeneratorHTML(clientData);
    request := Save(Html(reportGeneratorHtml), "report.html");
    SampleHtmlReport();
  }

  /** What the plain-text generator of the sample script would return if the
      call the script leaves commented out were made. */
  method SampleTextGenerate() returns (reportData: string)
    ensures reportData == "Name: Client 1 Address: Prueba address\n" + "Name: Client 2 Address: Prueba address 2\n"
  {
    var clientData := SampleData();
    var reportGenerator := new ReportDataGenerator(clientData);
    reportData := reportGenerator.Generate();
    SampleTextReport();
  }
}
