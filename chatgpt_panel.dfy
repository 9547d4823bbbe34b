/**
 * ChatGPT_panel: the ChatGPT transcript. Its text area is a buffer that
 * displayResponse and setLoading append to and clearConversation empties.
 */
module ChatGptPanel {
  import opened Transcript
  import ChatGptApi

  const Rule := "\n-------------------\n"
  const QueryLabel := "Query: "
  const LoadingMessage := "\nFetching response from ChatGPT...\n"

  /** The block displayResponse appends for one query and its response. */
  function Entry(query: string, response: string): string
  {
    Rule + QueryLabel + query + "\n\n" + response + "\n\n"
  }

  /**
   * An entry starts with the rule and shows the query and the response at
   * fixed places, so both can be read back from it.
   */
  lemma EntryReadsBack(query: string, response: string)
    ensures var e := Entry(query, response);
      && |e| == |Rule| + |QueryLabel| + |query| + |response| + 4
      && e[..|Rule|] == Rule
      && e[|Rule| + |QueryLabel|..|Rule| + |QueryLabel| + |query|] == query
      && e[|e| - 2 - |response|..|e| - 2] == response
  {
    var e := Entry(query, response);
    var head := Rule + QueryLabel + query + "\n\n";
    assert e == head + (response + "\n\n");
    assert e[|head|..|head| + |response|] == response;
    assert e[..|Rule| + |QueryLabel| + |query|] == Rule + QueryLabel + query;
  }

  /** For one query, different responses give different entries. */
  lemma EntryDeterminesResponse(query: string, r1: string, r2: string)
    requires Entry(query, r1) == Entry(query, r2)
    ensures r1 == r2
  {
    EntryReadsBack(query, r1);
    EntryReadsBack(query, r2);
  }

  class ChatGptPanel {
    const apiHandler: ChatGptApi.ChatGptHandler
    /** The text of responseArea. */
    var responseArea: string
    /** Every edit made to responseArea so far. */
    ghost var edits: seq<Edit>

    /** The area holds exactly what its edits leave in it. */
    ghost predicate Valid()
      reads this
    {
      responseArea == Replay(edits)
    }

    constructor (apiHandler: ChatGptApi.ChatGptHandler)
      ensures this.apiHandler == apiHandler
      ensures responseArea == "" && edits == [] && Valid()
    {
      this.apiHandler := apiHandler;
      responseArea := "";
      edits := [];
    }

    /** displayResponse: the entry is appended and the earlier text kept. */
    method DisplayResponse(query: string, response: string)
      modifies this
      ensures responseArea == old(responseArea) + Entry(query, response)
      ensures edits == old(edits) + [Append(Entry(query, response))]
      ensures old(Valid()) ==> Valid()
    {
      var formatted := Rule;
      formatted := formatted + QueryLabel + query + "\n\n";
      formatted := formatted + response + "\n\n";
      responseArea := responseArea + formatted;
      edits := edits + [Append(formatted)];
    }

    /** clearConversation: the area is empty and stays so until the next append. */
    method ClearConversation()
      modifies this
      ensures responseArea == ""
      ensures edits == old(edits) + [Reset]
      ensures Valid()
    {
      responseArea := "";
      edits := edits + [Reset];
    }

    /** setLoading: true appends the fetching line; false leaves the area as it was. */
    method SetLoading(isLoading: bool)
      modifies this
      ensures responseArea == old(responseArea) + (if isLoading then LoadingMessage else "")
      ensures edits == old(edits) + (if isLoading then [Append(LoadingMessage)] else [])
      ensures old(Valid()) ==> Valid()
    {
      if isLoading {
        responseArea := responseArea + LoadingMessage;
        edits := edits + [Append(LoadingMessage)];
      }
    }

    /** getApiHandler: the handler the panel was built with. */
    method GetApiHandler() returns (h: ChatGptApi.ChatGptHandler)
      ensures h == apiHandler
    {
      h := apiHandler;
    }
  }
}
