/**
 * Perplexity_panel: the Perplexity transcript. Same buffer operations as the
 * ChatGPT panel, but the entry puts no separator between query and response.
 */
module PerplexityPanel {
  import opened Transcript
  import PerplexityApi

  const Rule := "\n-------------------\n"
  const QueryLabel := "Query: "
  const LoadingMessage := "\nFetching response from Perplexity...\n"

  /** The block displayResponse appends: the response follows the query directly. */
  function Entry(query: string, response: string): string
  {
    Rule + QueryLabel + query + response + "\n\n"
  }

  /** An entry starts with the rule, shows the query at a fixed place and ends with the response and a blank line. */
  lemma EntryReadsBack(query: string, response: string)
    ensures var e := Entry(query, response);
      && |e| == |Rule| + |QueryLabel| + |query| + |response| + 2
      && e[..|Rule|] == Rule
      && e[|Rule| + |QueryLabel|..|Rule| + |QueryLabel| + |query|] == query
      && e[|e| - 2 - |response|..|e| - 2] == response
  {
    var e := Entry(query, response);
    var head := Rule + QueryLabel + query;
    assert e == head + (response + "\n\n");
    assert e[|head|..|head| + |response|] == response;
    assert e[..|head|] == head;
  }

  /**
   * Without a separator the boundary between query and response is lost:
   * moving one character across it gives the same entry.
   */
  lemma EntryBoundaryIsLost(query: string, c: char, response: string)
    ensures Entry(query + [c], response) == Entry(query, [c] + response)
  {
    assert Rule + QueryLabel + (query + [c]) + response == Rule + QueryLabel + query + ([c] + response);
  }

  class PerplexityPanel {
    const apiHandler: PerplexityApi.PerplexityHandler
    /** The text of responseArea. */
    var responseArea: string
    /** Every edit made to responseArea so far. */
    ghost var edits: seq<Edit>

    /** The area holds exactly what its edits leave in it. */
    ghost predicate Valid()
      reads this
    {
      responseArea == Replay(edits)
    }

    constructor (apiHandler: PerplexityApi.PerplexityHandler)
      ensures this.apiHandler == apiHandler
      ensures responseArea == "" && edits == [] && Valid()
    {
      this.apiHandler := apiHandler;
      responseArea := "";
      edits := [];
    }

    /** displayResponse: the entry is appended and the earlier text kept. */
    method DisplayResponse(query: string, response: string)
      modifies this
      ensures responseArea == old(responseArea) + Entry(query, response)
      ensures edits == old(edits) + [Append(Entry(query, response))]
      ensures old(Valid()) ==> Valid()
    {
      var formatted := Rule;
      formatted := formatted + QueryLabel + query;
      formatted := formatted + response + "\n\n";
      responseArea := responseArea + formatted;
      edits := edits + [Append(formatted)];
    }

    /** clearConversation: the area is empty. */
    method ClearConversation()
      modifies this
      ensures responseArea == ""
      ensures edits == old(edits) + [Reset]
      ensures Valid()
    {
      responseArea := "";
      edits := edits + [Reset];
    }

    /** setLoading: true appends the fetching line; false leaves the area as it was. */
    method SetLoading(isLoading: bool)
      modifies this
      ensures responseArea == old(responseArea) + (if isLoading then LoadingMessage else "")
      ensures edits == old(edits) + (if isLoading then [Append(LoadingMessage)] else [])
      ensures old(Valid()) ==> Valid()
    {
      if isLoading {
        responseArea := responseArea + LoadingMessage;
        edits := edits + [Append(LoadingMessage)];
      }
    }

    /** getApiHandler: the handler the panel was built with. */
    method GetApiHandler() returns (h: PerplexityApi.PerplexityHandler)
      ensures h == apiHandler
    {
      h := apiHandler;
    }
  }
}
