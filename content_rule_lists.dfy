/** The WebKit collaborators of the tracker blocker, through the interfaces
    TrackerBlockingMVP/TrackerBlocking/WebViewProtocol.swift and
    TrackerBlockingMVP/TrackerBlocking/ContentRuleListStoreProtocol.swift: a web view
    holding an ordered collection of rule lists, and a store of compiled lists by
    identifier. The compiler itself is foreign and is a function of the store. */
module ContentRuleLists {
  import opened Wrappers

  /** A compiled `WKContentRuleList`: the identifier it was compiled under and the
      encoded rules it came from. */
  datatype CompiledList = CompiledList(identifier: string, encodedRules: string)

  /** An error reported by WebKit's content rule list store. */
  datatype StoreError = CompileFailed(reason: string) | RemoveFailed

  /** What `compileContentRuleList` hands to its completion handler. */
  datatype CompileReply = CompileReply(list: Option<CompiledList>, error: Option<StoreError>)

  class WebView {
    /** `url?.host`: nil when there is no URL or the URL has no host. */
    const host: Option<string>
    var ruleLists: seq<CompiledList>

    constructor (host: Option<string>, ruleLists: seq<CompiledList>)
      ensures this.host == host && this.ruleLists == ruleLists
    {
      this.host := host;
      this.ruleLists := ruleLists;
    }

    method RemoveAllContentRuleLists()
      modifies this
      ensures ruleLists == []
    {
      ruleLists := [];
    }

    method AddContentRuleList(list: CompiledList)
      modifies this
      ensures ruleLists == old(ruleLists) + [list]
    {
      ruleLists := ruleLists + [list];
    }
  }

  class ContentRuleListStore {
    /** The compiled lists kept on disk, by identifier. */
    var lists: map<string, CompiledList>
    /** WebKit's compiler: identifier and encoded rules to the reply. */
    const compiler: (string, string) -> CompileReply

    constructor (lists: map<string, CompiledList>, compiler: (string, string) -> CompileReply)
      ensures this.lists == lists && this.compiler == compiler
    {
      this.lists := lists;
      this.compiler := compiler;
    }

    /** `lookUpContentRuleList(forIdentifier:)`: the stored list, if any. */
    function LookUp(identifier: string): (found: Option<CompiledList>)
      reads this
      ensures found.Some? <==> identifier in lists
      ensures found.Some? ==> found.value == lists[identifier]
    {
      if identifier in lists then Some(lists[identifier]) else None
    }

    /** `compileContentRuleList(forIdentifier:encodedContentRuleList:)`: a list the
        compiler produces without error is kept under the identifier. */
    method Compile(identifier: string, encodedRules: string) returns (reply: CompileReply)
      modifies this
      ensures reply == compiler(identifier, encodedRules)
      ensures lists == if reply.list.Some? && reply.error.None? then old(lists)[identifier := reply.list.value]
                       else old(lists)
    {
      reply := compiler(identifier, encodedRules);
      if reply.list.Some? && reply.error.None? {
        lists := lists[identifier := reply.list.value];
      }
    }

    /** `removeContentRuleList(forIdentifier:)`: an error when nothing is stored
        under the identifier. */
    method Remove(identifier: string) returns (error: Option<StoreError>)
      modifies this
      ensures error.None? <==> identifier in old(lists)
      ensures lists == old(lists) - {identifier}
    {
      if identifier !in lists {
        return Some(RemoveFailed);
      }
      lists := lists - {identifier};
      error := None;
    }
  }
}
