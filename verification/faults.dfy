/** Reading the diagnostic trouble codes (`get_dtc_codes`). */
module FaultCodes {
  import opened Base

  /** Human-readable text for a trouble code. */
  datatype Description = Description(title: string, description: string)

  /** One entry of the fault list, stamped with the time of the pass that read it. */
  datatype FaultCode = FaultCode(code: string, title: string, description: string, time: Stamp)

  /** How the diagnostics link answered the trouble-code query: no connection at
      all, or a connected link whose response may be null. Each raw code is the
      text of one returned code. */
  datatype FaultLink = Disconnected | Connected(response: Option<seq<string>>)

  /** The static code table. */
  const TABLE: map<string, Description> := map[
    "P0300" := Description("Rastgele Silindir Ateşleme Hatası", "Motorun silindirlerinden birinde veya birkaçında ateşleme hatası tespit edildi."),
    "P0171" := Description("Sistem Zayıf (Bank 1)", "Motorun yakıt sistemi çok fakir bir karışım sağlıyor."),
    "P0420" := Description("Katalitik Konvertör Verimliliği", "Katalitik konvertörün verimliliği eşik değerin altında."),
    "P0455" := Description("Emme Kontrol Sistemi Büyük Sızıntı", "Yakıt buharı emme kontrol sisteminde büyük bir sızıntı tespit edildi."),
    "P0101" := Description("MAF Sensörü Devre Aralığı/Performans", "Kütle hava akış sensöründe aralık veya performans sorunu."),
    "P0135" := Description("O2 Sensörü Isıtıcı Devresi (Bank 1, Sensör 1)", "Oksijen sensörü ısıtıcı devresinde arıza."),
    "P0301" := Description("Silindir 1 Ateşleme Hatası", "Silindir 1'de ateşleme hatası tespit edildi."),
    "P0442" := Description("Emme Kontrol Sistemi Küçük Sızıntı", "Yakıt buharı emme kontrol sisteminde küçük bir sızıntı tespit edildi."),
    "P0500" := Description("Hız Sensörü", "Araç hızı sensöründe arıza.")
  ]

  /** Description of codes missing from the table. */
  const UNKNOWN_DESCRIPTION: string := "Tanımlanmamış hata kodu."

  /** Table lookup with the generic entry as default. */
  function Describe(code: string): (d: Description)
    ensures code in TABLE ==> d == TABLE[code]
    ensures code !in TABLE ==> d.title == "Hata Kodu " + code && d.description == UNKNOWN_DESCRIPTION
  {
    if code in TABLE then TABLE[code] else Description("Hata Kodu " + code, UNKNOWN_DESCRIPTION)
  }

  /** The codes shown when there is no diagnostics connection, in order. */
  const DEMO_CODES: seq<string> := ["P0300", "P0171", "P0420", "P0455"]

  /** The demo fault list, written out in full as the source does. */
  function Demo(time: Stamp): (r: seq<FaultCode>)
    ensures |r| == |DEMO_CODES|
    ensures forall i :: 0 <= i < |r| ==> r[i].code == DEMO_CODES[i] && r[i].time == time
  {
    [ FaultCode("P0300", "Rastgele Silindir Ateşleme Hatası", "Motorun silindirlerinden birinde veya birkaçında ateşleme hatası tespit edildi.", time),
      FaultCode("P0171", "Sistem Zayıf (Bank 1)", "Motorun yakıt sistemi çok fakir bir karışım sağlıyor.", time),
      FaultCode("P0420", "Katalitik Konvertör Verimliliği", "Katalitik konvertörün verimliliği eşik değerin altında.", time),
      FaultCode("P0455", "Emme Kontrol Sistemi Büyük Sızıntı", "Yakıt buharı emme kontrol sisteminde büyük bir sızıntı tespit edildi.", time) ]
  }

  /** The demo list carries the same texts as the table: it is what decoding the
      four demo codes would give. */
  lemma DemoAgreesWithTable(time: Stamp)
    ensures forall i :: 0 <= i < |DEMO_CODES| ==>
      DEMO_CODES[i] in TABLE &&
      Demo(time)[i] == FaultCode(DEMO_CODES[i], Describe(DEMO_CODES[i]).title, Describe(DEMO_CODES[i]).description, time)
  {
  }

  /** One pass of the fault-code reader. The result replaces the previous list
      wholesale: it depends only on the link's answer and the time. */
  method ReadFaults(link: FaultLink, time: Stamp) returns (codes: seq<FaultCode>)
    ensures link.Disconnected? ==> codes == Demo(time)
    ensures link == Connected(None) ==> codes == []
    ensures link.Connected? && link.response.Some? ==>
      |codes| == |link.response.value| &&
      forall i :: 0 <= i < |codes| ==>
        var raw := link.response.value[i];
        && codes[i].code == raw
        && codes[i].time == time
        && (raw in TABLE ==> codes[i].title == TABLE[raw].title && codes[i].description == TABLE[raw].description)
        && (raw !in TABLE ==> codes[i].title == "Hata Kodu " + raw && codes[i].description == UNKNOWN_DESCRIPTION)
  {
    match link
    case Disconnected =>
      codes := Demo(time);
    case Connected(None) =>
      codes := [];
    case Connected(Some(raw)) =>
      codes := [];
      for k := 0 to |raw|
        invariant |codes| == k
        invariant forall i :: 0 <= i < k ==> codes[i] == FaultCode(raw[i], Describe(raw[i]).title, Describe(raw[i]).description, time)
      {
        var d := Describe(raw[k]);
        codes := codes + [FaultCode(raw[k], d.title, d.description, time)];
      }
  }
}
