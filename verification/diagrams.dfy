/** The example flows' diagrams. */
module Diagrams {
  import opened Models
  import opened Visualizer

  // Each literal line of the example diagrams, as the concatenation the
  // renderer builds it from; one lemma per line keeps each proof small.

  lemma StartNodeText()
    ensures "    " + "Start" + "[" + "Start" + " <br> Type: " + "Input" + "]" == "    Start[Start <br> Type: Input]"
  {
  }

  lemma EndNodeText()
    ensures "    " + "End" + "[" + "End" + " <br> Type: " + "Output" + "]" == "    End[End <br> Type: Output]"
  {
  }

  lemma StartToEndText()
    ensures "    " + "Start" + " --> |" + "StartToEnd" + "| " + "End" == "    Start --> |StartToEnd| End"
  {
  }

  /** The identity flow's diagram: the header, Start, End, and the one connection. */
  lemma IdentityFlowDiagram()
    ensures MermaidLines(IdentityFlow())
      == ["graph TD", "    Start[Start <br> Type: Input]", "    End[End <br> Type: Output]", "    Start --> |StartToEnd| End"]
  {
    var lines := MermaidLines(IdentityFlow());
    StartNodeText();
    EndNodeText();
    StartToEndText();
    assert lines[1] == "    " + "Start" + "[" + "Start" + " <br> Type: " + "Input" + "]";
    assert lines[2] == "    " + "End" + "[" + "End" + " <br> Type: " + "Output" + "]";
    assert lines[3] == "    " + "Start" + " --> |" + "StartToEnd" + "| " + "End";
  }

  lemma StartToUpcaseText()
    ensures "    " + "Start" + " --> |" + "StartToUpcase" + "| " + "Upcase" == "    Start --> |StartToUpcase| Upcase"
  {
  }

  lemma UpcaseToEndText()
    ensures "    " + "Upcase" + " --> |" + "UpcaseToEnd" + "| " + "End" == "    Upcase --> |UpcaseToEnd| End"
  {
  }

  /** The upcase flow's diagram ends with its two connection lines, in order. */
  lemma UpcaseFlowDiagram(lambdaArn: string)
    ensures var lines := MermaidLines(UpcaseFlow(lambdaArn));
            && |lines| == 6
            && lines[0] == "graph TD"
            && lines[4] == "    Start --> |StartToUpcase| Upcase"
            && lines[5] == "    Upcase --> |UpcaseToEnd| End"
  {
    var lines := MermaidLines(UpcaseFlow(lambdaArn));
    StartToUpcaseText();
    UpcaseToEndText();
    assert lines[4] == "    " + "Start" + " --> |" + "StartToUpcase" + "| " + "Upcase";
    assert lines[5] == "    " + "Upcase" + " --> |" + "UpcaseToEnd" + "| " + "End";
  }

  lemma StartToKBText()
    ensures "    " + "Start" + " --> |" + "StartToKB" + "| " + "QueryKnowledgeBase"
         == "    Start --> |StartToKB| QueryKnowledgeBase"
  {
  }

  lemma StartToPromptText()
    ensures "    " + "Start" + " --> |" + "StartToPrompt" + "| " + "GenerateResponse"
         == "    Start --> |StartToPrompt| GenerateResponse"
  {
  }

  lemma KBToPromptText()
    ensures "    " + "QueryKnowledgeBase" + " --> |" + "KBToPrompt" + "| " + "GenerateResponse"
         == "    QueryKnowledgeBase --> |KBToPrompt| GenerateResponse"
  {
    assert "    " + "QueryKnowledgeBase" == "    QueryKnowledgeBase";
    assert "    QueryKnowledgeBase" + " --> |" == "    QueryKnowledgeBase --> |";
    assert "    QueryKnowledgeBase --> |" + "KBToPrompt" == "    QueryKnowledgeBase --> |KBToPrompt";
    assert "    QueryKnowledgeBase --> |KBToPrompt" + "| " == "    QueryKnowledgeBase --> |KBToPrompt| ";
  }

  lemma PromptToEndText()
    ensures "    " + "GenerateResponse" + " --> |" + "PromptToEnd" + "| " + "End"
         == "    GenerateResponse --> |PromptToEnd| End"
  {
  }

  /** Unlike the simulator, the renderer draws both connections leaving Start. */
  lemma KnowledgeBaseDiagramFanOut(knowledgeBaseId: string, promptArn: string)
    ensures var lines := MermaidLines(KnowledgeBaseFlow(knowledgeBaseId, promptArn));
            && |lines| == 9
            && lines[5] == "    Start --> |StartToKB| QueryKnowledgeBase"
            && lines[6] == "    Start --> |StartToPrompt| GenerateResponse"
            && lines[7] == "    QueryKnowledgeBase --> |KBToPrompt| GenerateResponse"
            && lines[8] == "    GenerateResponse --> |PromptToEnd| End"
  {
    var lines := MermaidLines(KnowledgeBaseFlow(knowledgeBaseId, promptArn));
    StartToKBText();
    StartToPromptText();
    KBToPromptText();
    PromptToEndText();
    assert lines[5] == "    " + "Start" + " --> |" + "StartToKB" + "| " + "QueryKnowledgeBase";
    assert lines[6] == "    " + "Start" + " --> |" + "StartToPrompt" + "| " + "GenerateResponse";
    assert lines[7] == "    " + "QueryKnowledgeBase" + " --> |" + "KBToPrompt" + "| " + "GenerateResponse";
    assert lines[8] == "    " + "GenerateResponse" + " --> |" + "PromptToEnd" + "| " + "End";
  }
}
