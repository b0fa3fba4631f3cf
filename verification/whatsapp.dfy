/** The WhatsApp page's local state: switching automation flows and FAQ
    entries on and off, and the colour of a conversation's status badge. */
module WhatsApp {
  import opened Lists

  /** An automation flow (`FlowConfig`). */
  datatype Flow = Flow(id: string, name: string, description: string, message: string,
                       active: bool, triggers: int)

  /** A frequently asked question (`FAQ`). */
  datatype Faq = Faq(id: string, question: string, answer: string, active: bool)

  /** `toggleFlow`: `flows.map(flow => flow.id === id ? { ...flow, active: !flow.active } : flow)`. */
  function ToggleFlow(flows: seq<Flow>, id: string): (r: seq<Flow>)
    ensures |r| == |flows|
    ensures forall i :: 0 <= i < |flows| ==> r[i].active == (flows[i].active != (flows[i].id == id))
    ensures forall i :: 0 <= i < |flows| ==> r[i].(active := flows[i].active) == flows[i]
  {
    UpdateWhere(flows, (f: Flow) => f.id == id, (f: Flow) => f.(active := !f.active))
  }

  /** Switching the same flow twice restores the list. */
  lemma ToggleFlowTwice(flows: seq<Flow>, id: string)
    ensures ToggleFlow(ToggleFlow(flows, id), id) == flows
  {
    var once := ToggleFlow(flows, id);
    var twice := ToggleFlow(once, id);
    assert forall i :: 0 <= i < |flows| ==> twice[i] == flows[i];
  }

  /** Switching an id no flow carries changes nothing. */
  lemma ToggleFlowAbsent(flows: seq<Flow>, id: string)
    requires forall i :: 0 <= i < |flows| ==> flows[i].id != id
    ensures ToggleFlow(flows, id) == flows
  {
    var r := ToggleFlow(flows, id);
    assert forall i :: 0 <= i < |flows| ==> r[i] == flows[i];
  }

  /** Switching two flows gives the same list in either order. */
  lemma ToggleFlowCommutes(flows: seq<Flow>, a: string, b: string)
    ensures ToggleFlow(ToggleFlow(flows, a), b) == ToggleFlow(ToggleFlow(flows, b), a)
  {
    var ab := ToggleFlow(ToggleFlow(flows, a), b);
    var ba := ToggleFlow(ToggleFlow(flows, b), a);
    assert forall i :: 0 <= i < |flows| ==> ab[i] == ba[i];
  }

  /** `toggleFAQ`: the same update on the FAQ list. */
  function ToggleFaq(faqs: seq<Faq>, id: string): (r: seq<Faq>)
    ensures |r| == |faqs|
    ensures forall i :: 0 <= i < |faqs| ==> r[i].active == (faqs[i].active != (faqs[i].id == id))
    ensures forall i :: 0 <= i < |faqs| ==> r[i].(active := faqs[i].active) == faqs[i]
  {
    UpdateWhere(faqs, (q: Faq) => q.id == id, (q: Faq) => q.(active := !q.active))
  }

  /** Switching the same FAQ twice restores the list. */
  lemma ToggleFaqTwice(faqs: seq<Faq>, id: string)
    ensures ToggleFaq(ToggleFaq(faqs, id), id) == faqs
  {
    var once := ToggleFaq(faqs, id);
    var twice := ToggleFaq(once, id);
    assert forall i :: 0 <= i < |faqs| ==> twice[i] == faqs[i];
  }

  /** Switching an id no FAQ carries changes nothing. */
  lemma ToggleFaqAbsent(faqs: seq<Faq>, id: string)
    requires forall i :: 0 <= i < |faqs| ==> faqs[i].id != id
    ensures ToggleFaq(faqs, id) == faqs
  {
    var r := ToggleFaq(faqs, id);
    assert forall i :: 0 <= i < |faqs| ==> r[i] == faqs[i];
  }

  const ANSWERED_STYLE := "bg-green-500/10 text-green-700 dark:text-green-400"
  const PENDING_STYLE := "bg-yellow-500/10 text-yellow-700 dark:text-yellow-400"
  const FINISHED_STYLE := "bg-blue-500/10 text-blue-700 dark:text-blue-400"
  const OTHER_STYLE := "bg-gray-500/10 text-gray-700 dark:text-gray-400"

  /** `getStatusColor` of the conversation badges. */
  function StatusColor(status: string): (style: string)
    ensures style == ANSWERED_STYLE <==> status == "respondida"
    ensures style == PENDING_STYLE <==> status == "pendente"
    ensures style == FINISHED_STYLE <==> status == "finalizada"
    ensures style == OTHER_STYLE <==> status !in {"respondida", "pendente", "finalizada"}
  {
    match status
    case "respondida" => ANSWERED_STYLE
    case "pendente" => PENDING_STYLE
    case "finalizada" => FINISHED_STYLE
    case _ => OTHER_STYLE
  }
}
