/** The field tables of the reporting messages, transcribed from the generated code: what each
    `encode` writes, in its order and with its tag constants, and, separately, what each `case`
    of each `decode` assigns. */
module Schema {
  import opened Wrappers
  import opened Wire

  /** The message types of the reporting protocol. */
  datatype MessageType =
    | TraceMsg | CachePolicyMsg | DetailsMsg | ErrorMsg | HttpMsg | ValuesMsg | LocationMsg
    | NodeMsg | QueryPlanNodeMsg | SequenceNodeMsg | ParallelNodeMsg | FetchNodeMsg
    | FlattenNodeMsg | ResponsePathElementMsg | ReportHeaderMsg | PathErrorStatsMsg
    | QueryLatencyStatsMsg | StatsContextMsg | ContextualizedQueryLatencyStatsMsg
    | ContextualizedTypeStatsMsg | FieldStatMsg | TypeStatMsg | FieldMsg | TypeMsg | ReportMsg
    | ContextualizedStatsMsg | TracesAndStatsMsg | TimestampMsg

  /** The property names of the message objects. */
  datatype Property =
    | EndTime | StartTime | Details | ClientName | ClientVersion | ClientAddress | Http
    | DurationNs | Root | CachePolicy | Signature | FullQueryCacheHit | PersistedQueryHit
    | PersistedQueryRegister | ClientReferenceId | RegisteredOperation | ForbiddenOperation
    | QueryPlan | UnexecutedOperationBody | UnexecutedOperationName | Scope | MaxAgeNs
    | OperationName | VariablesJson | Message | Location | TimeNs | Json | Method | Host | Path
    | RequestHeaders | ResponseHeaders | StatusCode | Secure | Protocol | Value | Line | Column
    | ResponseName | Index | Type | Error | Child | ParentType | OriginalFieldName | Sequence
    | Parallel | Fetch | Flatten | Nodes | ServiceName | TraceParsingFailed | Trace
    | SentTimeOffset | SentTime | ReceivedTime | ResponsePath | Node | FieldName | Hostname
    | AgentVersion | ServiceVersion | RuntimeVersion | Uname | ExecutableSchemaId | GraphRef
    | Children | ErrorsCount | RequestsWithErrorsCount | RequestCount | CacheHits
    | PersistedQueryHits | PersistedQueryMisses | RootErrorStats | RegisteredOperationCount
    | ForbiddenOperationCount | LatencyCount | CacheLatencyCount | PublicCacheTtlCount
    | PrivateCacheTtlCount | QueryLatencyStats | Context | PerTypeStat | ReturnType | Count
    | PerFieldStat | Name | Field | Header | TracesPerQuery | StatsWithContext
    | InternalTracesContributingToStats | Seconds | Nanos

  /** How a property is written and read. */
  datatype Kind =
    | Single(element: Element)         // one value
    | Repeated(element: Element)       // an array, one record an element
    | RepeatedOrRaw(element: Element)  // an array whose elements may be encoded already
    | Packed(scalar: Scalar)           // an array of numbers in one block
    | Keyed(element: Element)          // an object, one record an entry

  /** A scalar or a message of some type. */
  datatype Element = Plain(scalar: Scalar) | Sub(message: MessageType)

  /** One property that `encode` writes. */
  datatype Slot = Slot(property: Property, tag: nat, kind: Kind)

  /** What one `case` of a `decode` switch assigns. */
  datatype Target = Target(property: Property, kind: Kind)

  /** The wire type of the tags of a property. */
  function WireType(kind: Kind): nat {
    if kind.Single? && kind.element.Plain? && !kind.element.scalar.Text? then 0 else 2
  }

  /** How `decode` reads what a slot of this kind has written. */
  function DecodedKind(kind: Kind): Kind {
    if kind.RepeatedOrRaw? then Repeated(kind.element) else kind
  }

  /** How many properties `encode` may write for a message of each type. */
  function SlotCount(t: MessageType): nat {
    match t
    case TraceMsg => 20
    case CachePolicyMsg => 2
    case DetailsMsg => 2
    case ErrorMsg => 4
    case HttpMsg => 8
    case ValuesMsg => 1
    case LocationMsg => 2
    case NodeMsg => 10
    case QueryPlanNodeMsg => 4
    case SequenceNodeMsg => 1
    case ParallelNodeMsg => 1
    case FetchNodeMsg => 6
    case FlattenNodeMsg => 2
    case ResponsePathElementMsg => 2
    case ReportHeaderMsg => 7
    case PathErrorStatsMsg => 3
    case QueryLatencyStatsMsg => 12
    case StatsContextMsg => 3
    case ContextualizedQueryLatencyStatsMsg => 2
    case ContextualizedTypeStatsMsg => 2
    case FieldStatMsg => 5
    case TypeStatMsg => 1
    case FieldMsg => 2
    case TypeMsg => 2
    case ReportMsg => 3
    case ContextualizedStatsMsg => 3
    case TracesAndStatsMsg => 3
    case TimestampMsg => 2
  }

  /** The properties that `encode` writes for a message of each type, in order. */
  function SlotAt(t: MessageType, i: nat): Slot {
    match t
    // protobuf.js:236-280
    case TraceMsg => (
      match i
      case 0 => Slot(EndTime, 26, Single(Sub(TimestampMsg)))
      case 1 => Slot(StartTime, 34, Single(Sub(TimestampMsg)))
      case 2 => Slot(Details, 50, Single(Sub(DetailsMsg)))
      case 3 => Slot(ClientName, 58, Single(Plain(Text)))
      case 4 => Slot(ClientVersion, 66, Single(Plain(Text)))
      case 5 => Slot(ClientAddress, 74, Single(Plain(Text)))
      case 6 => Slot(Http, 82, Single(Sub(HttpMsg)))
      case 7 => Slot(DurationNs, 88, Single(Plain(UInt64)))
      case 8 => Slot(Root, 114, Single(Sub(NodeMsg)))
      case 9 => Slot(CachePolicy, 146, Single(Sub(CachePolicyMsg)))
      case 10 => Slot(Signature, 154, Single(Plain(Text)))
      case 11 => Slot(FullQueryCacheHit, 160, Single(Plain(Bool)))
      case 12 => Slot(PersistedQueryHit, 168, Single(Plain(Bool)))
      case 13 => Slot(PersistedQueryRegister, 176, Single(Plain(Bool)))
      case 14 => Slot(ClientReferenceId, 186, Single(Plain(Text)))
      case 15 => Slot(RegisteredOperation, 192, Single(Plain(Bool)))
      case 16 => Slot(ForbiddenOperation, 200, Single(Plain(Bool)))
      case 17 => Slot(QueryPlan, 210, Single(Sub(QueryPlanNodeMsg)))
      case 18 => Slot(UnexecutedOperationBody, 218, Single(Plain(Text)))
      case _ => Slot(UnexecutedOperationName, 226, Single(Plain(Text))))
    // protobuf.js:643-651
    case CachePolicyMsg => (
      match i
      case 0 => Slot(Scope, 8, Single(Plain(Int32)))
      case _ => Slot(MaxAgeNs, 16, Single(Plain(Int64))))
    // protobuf.js:864-873
    case DetailsMsg => (
      match i
      case 0 => Slot(OperationName, 26, Single(Plain(Text)))
      case _ => Slot(VariablesJson, 34, Keyed(Plain(Text))))
    // protobuf.js:1089-1102
    case ErrorMsg => (
      match i
      case 0 => Slot(Message, 10, Single(Plain(Text)))
      case 1 => Slot(Location, 18, Repeated(Sub(LocationMsg)))
      case 2 => Slot(TimeNs, 24, Single(Plain(UInt64)))
      case _ => Slot(Json, 34, Single(Plain(Text))))
    // protobuf.js:1378-1404
    case HttpMsg => (
      match i
      case 0 => Slot(Method, 8, Single(Plain(Int32)))
      case 1 => Slot(Host, 18, Single(Plain(Text)))
      case 2 => Slot(Path, 26, Single(Plain(Text)))
      case 3 => Slot(RequestHeaders, 34, Keyed(Sub(ValuesMsg)))
      case 4 => Slot(ResponseHeaders, 42, Keyed(Sub(ValuesMsg)))
      case 5 => Slot(StatusCode, 48, Single(Plain(UInt32)))
      case 6 => Slot(Secure, 64, Single(Plain(Bool)))
      case _ => Slot(Protocol, 74, Single(Plain(Text))))
    // protobuf.js:1676-1683
    case ValuesMsg => (
      match i
      case _ => Slot(Value, 10, Repeated(Plain(Text))))
    // protobuf.js:1898-1906
    case LocationMsg => (
      match i
      case 0 => Slot(Line, 8, Single(Plain(UInt32)))
      case _ => Slot(Column, 16, Single(Plain(UInt32))))
    // protobuf.js:2177-2203
    case NodeMsg => (
      match i
      case 0 => Slot(ResponseName, 10, Single(Plain(Text)))
      case 1 => Slot(Index, 16, Single(Plain(UInt32)))
      case 2 => Slot(Type, 26, Single(Plain(Text)))
      case 3 => Slot(CachePolicy, 42, Single(Sub(CachePolicyMsg)))
      case 4 => Slot(StartTime, 64, Single(Plain(UInt64)))
      case 5 => Slot(EndTime, 72, Single(Plain(UInt64)))
      case 6 => Slot(Error, 90, Repeated(Sub(ErrorMsg)))
      case 7 => Slot(Child, 98, Repeated(Sub(NodeMsg)))
      case 8 => Slot(ParentType, 106, Single(Plain(Text)))
      case _ => Slot(OriginalFieldName, 114, Single(Plain(Text))))
    // protobuf.js:2541-2553
    case QueryPlanNodeMsg => (
      match i
      case 0 => Slot(Sequence, 10, Single(Sub(SequenceNodeMsg)))
      case 1 => Slot(Parallel, 18, Single(Sub(ParallelNodeMsg)))
      case 2 => Slot(Fetch, 26, Single(Sub(FetchNodeMsg)))
      case _ => Slot(Flatten, 34, Single(Sub(FlattenNodeMsg))))
    // protobuf.js:2776-2783
    case SequenceNodeMsg => (
      match i
      case _ => Slot(Nodes, 10, Repeated(Sub(QueryPlanNodeMsg))))
    // protobuf.js:2959-2966
    case ParallelNodeMsg => (
      match i
      case _ => Slot(Nodes, 10, Repeated(Sub(QueryPlanNodeMsg))))
    // protobuf.js:3186-3202
    case FetchNodeMsg => (
      match i
      case 0 => Slot(ServiceName, 10, Single(Plain(Text)))
      case 1 => Slot(TraceParsingFailed, 16, Single(Plain(Bool)))
      case 2 => Slot(Trace, 26, Single(Sub(TraceMsg)))
      case 3 => Slot(SentTimeOffset, 32, Single(Plain(UInt64)))
      case 4 => Slot(SentTime, 42, Single(Sub(TimestampMsg)))
      case _ => Slot(ReceivedTime, 50, Single(Sub(TimestampMsg))))
    // protobuf.js:3435-3444
    case FlattenNodeMsg => (
      match i
      case 0 => Slot(ResponsePath, 10, Repeated(Sub(ResponsePathElementMsg)))
      case _ => Slot(Node, 18, Single(Sub(QueryPlanNodeMsg))))
    // protobuf.js:3654-3662
    case ResponsePathElementMsg => (
      match i
      case 0 => Slot(FieldName, 10, Single(Plain(Text)))
      case _ => Slot(Index, 16, Single(Plain(UInt32))))
    // protobuf.js:3905-3923
    case ReportHeaderMsg => (
      match i
      case 0 => Slot(Hostname, 42, Single(Plain(Text)))
      case 1 => Slot(AgentVersion, 50, Single(Plain(Text)))
      case 2 => Slot(ServiceVersion, 58, Single(Plain(Text)))
      case 3 => Slot(RuntimeVersion, 66, Single(Plain(Text)))
      case 4 => Slot(Uname, 74, Single(Plain(Text)))
      case 5 => Slot(ExecutableSchemaId, 90, Single(Plain(Text)))
      case _ => Slot(GraphRef, 98, Single(Plain(Text))))
    // protobuf.js:4161-4174
    case PathErrorStatsMsg => (
      match i
      case 0 => Slot(Children, 10, Keyed(Sub(PathErrorStatsMsg)))
      case 1 => Slot(ErrorsCount, 32, Single(Plain(UInt64)))
      case _ => Slot(RequestsWithErrorsCount, 40, Single(Plain(UInt64))))
    // protobuf.js:4491-4555
    case QueryLatencyStatsMsg => (
      match i
      case 0 => Slot(RequestCount, 16, Single(Plain(UInt64)))
      case 1 => Slot(CacheHits, 24, Single(Plain(UInt64)))
      case 2 => Slot(PersistedQueryHits, 32, Single(Plain(UInt64)))
      case 3 => Slot(PersistedQueryMisses, 40, Single(Plain(UInt64)))
      case 4 => Slot(RootErrorStats, 58, Single(Sub(PathErrorStatsMsg)))
      case 5 => Slot(RequestsWithErrorsCount, 64, Single(Plain(UInt64)))
      case 6 => Slot(RegisteredOperationCount, 88, Single(Plain(UInt64)))
      case 7 => Slot(ForbiddenOperationCount, 96, Single(Plain(UInt64)))
      case 8 => Slot(LatencyCount, 106, Packed(SInt64))
      case 9 => Slot(CacheLatencyCount, 114, Packed(SInt64))
      case 10 => Slot(PublicCacheTtlCount, 122, Packed(SInt64))
      case _ => Slot(PrivateCacheTtlCount, 130, Packed(SInt64)))
    // protobuf.js:4978-4988
    case StatsContextMsg => (
      match i
      case 0 => Slot(ClientReferenceId, 10, Single(Plain(Text)))
      case 1 => Slot(ClientName, 18, Single(Plain(Text)))
      case _ => Slot(ClientVersion, 26, Single(Plain(Text))))
    // protobuf.js:5180-5188
    case ContextualizedQueryLatencyStatsMsg => (
      match i
      case 0 => Slot(QueryLatencyStats, 10, Single(Sub(QueryLatencyStatsMsg)))
      case _ => Slot(Context, 18, Single(Sub(StatsContextMsg))))
    // protobuf.js:5376-5387
    case ContextualizedTypeStatsMsg => (
      match i
      case 0 => Slot(Context, 10, Single(Sub(StatsContextMsg)))
      case _ => Slot(PerTypeStat, 18, Keyed(Sub(TypeStatMsg))))
    // protobuf.js:5616-5639
    case FieldStatMsg => (
      match i
      case 0 => Slot(ReturnType, 26, Single(Plain(Text)))
      case 1 => Slot(ErrorsCount, 32, Single(Plain(UInt64)))
      case 2 => Slot(Count, 40, Single(Plain(UInt64)))
      case 3 => Slot(RequestsWithErrorsCount, 48, Single(Plain(UInt64)))
      case _ => Slot(LatencyCount, 74, Packed(SInt64)))
    // protobuf.js:5885-5894
    case TypeStatMsg => (
      match i
      case _ => Slot(PerFieldStat, 26, Keyed(Sub(FieldStatMsg))))
    // protobuf.js:6083-6091
    case FieldMsg => (
      match i
      case 0 => Slot(Name, 18, Single(Plain(Text)))
      case _ => Slot(ReturnType, 26, Single(Plain(Text))))
    // protobuf.js:6275-6284
    case TypeMsg => (
      match i
      case 0 => Slot(Name, 10, Single(Plain(Text)))
      case _ => Slot(Field, 18, Repeated(Sub(FieldMsg))))
    // protobuf.js:6488-6501
    case ReportMsg => (
      match i
      case 0 => Slot(Header, 10, Single(Sub(ReportHeaderMsg)))
      case 1 => Slot(EndTime, 18, Single(Sub(TimestampMsg)))
      case _ => Slot(TracesPerQuery, 42, Keyed(Sub(TracesAndStatsMsg))))
    // protobuf.js:6724-6737
    case ContextualizedStatsMsg => (
      match i
      case 0 => Slot(Context, 10, Single(Sub(StatsContextMsg)))
      case 1 => Slot(QueryLatencyStats, 18, Single(Sub(QueryLatencyStatsMsg)))
      case _ => Slot(PerTypeStat, 26, Keyed(Sub(TypeStatMsg))))
    // protobuf.js:6962-6988
    case TracesAndStatsMsg => (
      match i
      case 0 => Slot(Trace, 10, RepeatedOrRaw(Sub(TraceMsg)))
      case 1 => Slot(StatsWithContext, 18, Repeated(Sub(ContextualizedStatsMsg)))
      case _ => Slot(InternalTracesContributingToStats, 26, RepeatedOrRaw(Sub(TraceMsg))))
    // protobuf.js:7238-7246
    case TimestampMsg => (
      match i
      case 0 => Slot(Seconds, 8, Single(Plain(Int64)))
      case _ => Slot(Nanos, 16, Single(Plain(Int32))))
  }

  /** The `switch` of each `decode`, by field number. */
  function Case(t: MessageType, number: nat): Option<Target> {
    match t
    // protobuf.js:306-379
    case TraceMsg => (
      match number
      case 4 => Some(Target(StartTime, Single(Sub(TimestampMsg))))
      case 3 => Some(Target(EndTime, Single(Sub(TimestampMsg))))
      case 11 => Some(Target(DurationNs, Single(Plain(UInt64))))
      case 14 => Some(Target(Root, Single(Sub(NodeMsg))))
      case 19 => Some(Target(Signature, Single(Plain(Text))))
      case 27 => Some(Target(UnexecutedOperationBody, Single(Plain(Text))))
      case 28 => Some(Target(UnexecutedOperationName, Single(Plain(Text))))
      case 6 => Some(Target(Details, Single(Sub(DetailsMsg))))
      case 7 => Some(Target(ClientName, Single(Plain(Text))))
      case 8 => Some(Target(ClientVersion, Single(Plain(Text))))
      case 9 => Some(Target(ClientAddress, Single(Plain(Text))))
      case 23 => Some(Target(ClientReferenceId, Single(Plain(Text))))
      case 10 => Some(Target(Http, Single(Sub(HttpMsg))))
      case 18 => Some(Target(CachePolicy, Single(Sub(CachePolicyMsg))))
      case 26 => Some(Target(QueryPlan, Single(Sub(QueryPlanNodeMsg))))
      case 20 => Some(Target(FullQueryCacheHit, Single(Plain(Bool))))
      case 21 => Some(Target(PersistedQueryHit, Single(Plain(Bool))))
      case 22 => Some(Target(PersistedQueryRegister, Single(Plain(Bool))))
      case 24 => Some(Target(RegisteredOperation, Single(Plain(Bool))))
      case 25 => Some(Target(ForbiddenOperation, Single(Plain(Bool))))
      case _ => None)
    // protobuf.js:677-696
    case CachePolicyMsg => (
      match number
      case 1 => Some(Target(Scope, Single(Plain(Int32))))
      case 2 => Some(Target(MaxAgeNs, Single(Plain(Int64))))
      case _ => None)
    // protobuf.js:899-923
    case DetailsMsg => (
      match number
      case 4 => Some(Target(VariablesJson, Keyed(Plain(Text))))
      case 3 => Some(Target(OperationName, Single(Plain(Text))))
      case _ => None)
    // protobuf.js:1128-1155
    case ErrorMsg => (
      match number
      case 1 => Some(Target(Message, Single(Plain(Text))))
      case 2 => Some(Target(Location, Repeated(Sub(LocationMsg))))
      case 3 => Some(Target(TimeNs, Single(Plain(UInt64))))
      case 4 => Some(Target(Json, Single(Plain(Text))))
      case _ => None)
    // protobuf.js:1430-1477
    case HttpMsg => (
      match number
      case 1 => Some(Target(Method, Single(Plain(Int32))))
      case 2 => Some(Target(Host, Single(Plain(Text))))
      case 3 => Some(Target(Path, Single(Plain(Text))))
      case 4 => Some(Target(RequestHeaders, Keyed(Sub(ValuesMsg))))
      case 5 => Some(Target(ResponseHeaders, Keyed(Sub(ValuesMsg))))
      case 6 => Some(Target(StatusCode, Single(Plain(UInt32))))
      case 8 => Some(Target(Secure, Single(Plain(Bool))))
      case 9 => Some(Target(Protocol, Single(Plain(Text))))
      case _ => None)
    // protobuf.js:1709-1727
    case ValuesMsg => (
      match number
      case 1 => Some(Target(Value, Repeated(Plain(Text))))
      case _ => None)
    // protobuf.js:1932-1951
    case LocationMsg => (
      match number
      case 1 => Some(Target(Line, Single(Plain(UInt32))))
      case 2 => Some(Target(Column, Single(Plain(UInt32))))
      case _ => None)
    // protobuf.js:2229-2276
    case NodeMsg => (
      match number
      case 1 => Some(Target(ResponseName, Single(Plain(Text))))
      case 2 => Some(Target(Index, Single(Plain(UInt32))))
      case 14 => Some(Target(OriginalFieldName, Single(Plain(Text))))
      case 3 => Some(Target(Type, Single(Plain(Text))))
      case 13 => Some(Target(ParentType, Single(Plain(Text))))
      case 5 => Some(Target(CachePolicy, Single(Sub(CachePolicyMsg))))
      case 8 => Some(Target(StartTime, Single(Plain(UInt64))))
      case 9 => Some(Target(EndTime, Single(Plain(UInt64))))
      case 11 => Some(Target(Error, Repeated(Sub(ErrorMsg))))
      case 12 => Some(Target(Child, Repeated(Sub(NodeMsg))))
      case _ => None)
    // protobuf.js:2579-2604
    case QueryPlanNodeMsg => (
      match number
      case 1 => Some(Target(Sequence, Single(Sub(SequenceNodeMsg))))
      case 2 => Some(Target(Parallel, Single(Sub(ParallelNodeMsg))))
      case 3 => Some(Target(Fetch, Single(Sub(FetchNodeMsg))))
      case 4 => Some(Target(Flatten, Single(Sub(FlattenNodeMsg))))
      case _ => None)
    // protobuf.js:2809-2827
    case SequenceNodeMsg => (
      match number
      case 1 => Some(Target(Nodes, Repeated(Sub(QueryPlanNodeMsg))))
      case _ => None)
    // protobuf.js:2992-3010
    case ParallelNodeMsg => (
      match number
      case 1 => Some(Target(Nodes, Repeated(Sub(QueryPlanNodeMsg))))
      case _ => None)
    // protobuf.js:3228-3259
    case FetchNodeMsg => (
      match number
      case 1 => Some(Target(ServiceName, Single(Plain(Text))))
      case 2 => Some(Target(TraceParsingFailed, Single(Plain(Bool))))
      case 3 => Some(Target(Trace, Single(Sub(TraceMsg))))
      case 4 => Some(Target(SentTimeOffset, Single(Plain(UInt64))))
      case 5 => Some(Target(SentTime, Single(Sub(TimestampMsg))))
      case 6 => Some(Target(ReceivedTime, Single(Sub(TimestampMsg))))
      case _ => None)
    // protobuf.js:3470-3491
    case FlattenNodeMsg => (
      match number
      case 1 => Some(Target(ResponsePath, Repeated(Sub(ResponsePathElementMsg))))
      case 2 => Some(Target(Node, Single(Sub(QueryPlanNodeMsg))))
      case _ => None)
    // protobuf.js:3688-3707
    case ResponsePathElementMsg => (
      match number
      case 1 => Some(Target(FieldName, Single(Plain(Text))))
      case 2 => Some(Target(Index, Single(Plain(UInt32))))
      case _ => None)
    // protobuf.js:3949-3983
    case ReportHeaderMsg => (
      match number
      case 12 => Some(Target(GraphRef, Single(Plain(Text))))
      case 5 => Some(Target(Hostname, Single(Plain(Text))))
      case 6 => Some(Target(AgentVersion, Single(Plain(Text))))
      case 7 => Some(Target(ServiceVersion, Single(Plain(Text))))
      case 8 => Some(Target(RuntimeVersion, Single(Plain(Text))))
      case 9 => Some(Target(Uname, Single(Plain(Text))))
      case 11 => Some(Target(ExecutableSchemaId, Single(Plain(Text))))
      case _ => None)
    // protobuf.js:4200-4227
    case PathErrorStatsMsg => (
      match number
      case 1 => Some(Target(Children, Keyed(Sub(PathErrorStatsMsg))))
      case 4 => Some(Target(ErrorsCount, Single(Plain(UInt64))))
      case 5 => Some(Target(RequestsWithErrorsCount, Single(Plain(UInt64))))
      case _ => None)
    // protobuf.js:4581-4658
    case QueryLatencyStatsMsg => (
      match number
      case 13 => Some(Target(LatencyCount, Packed(SInt64)))
      case 2 => Some(Target(RequestCount, Single(Plain(UInt64))))
      case 3 => Some(Target(CacheHits, Single(Plain(UInt64))))
      case 4 => Some(Target(PersistedQueryHits, Single(Plain(UInt64))))
      case 5 => Some(Target(PersistedQueryMisses, Single(Plain(UInt64))))
      case 14 => Some(Target(CacheLatencyCount, Packed(SInt64)))
      case 7 => Some(Target(RootErrorStats, Single(Sub(PathErrorStatsMsg))))
      case 8 => Some(Target(RequestsWithErrorsCount, Single(Plain(UInt64))))
      case 15 => Some(Target(PublicCacheTtlCount, Packed(SInt64)))
      case 16 => Some(Target(PrivateCacheTtlCount, Packed(SInt64)))
      case 11 => Some(Target(RegisteredOperationCount, Single(Plain(UInt64))))
      case 12 => Some(Target(ForbiddenOperationCount, Single(Plain(UInt64))))
      case _ => None)
    // protobuf.js:5014-5036
    case StatsContextMsg => (
      match number
      case 1 => Some(Target(ClientReferenceId, Single(Plain(Text))))
      case 2 => Some(Target(ClientName, Single(Plain(Text))))
      case 3 => Some(Target(ClientVersion, Single(Plain(Text))))
      case _ => None)
    // protobuf.js:5214-5233
    case ContextualizedQueryLatencyStatsMsg => (
      match number
      case 1 => Some(Target(QueryLatencyStats, Single(Sub(QueryLatencyStatsMsg))))
      case 2 => Some(Target(Context, Single(Sub(StatsContextMsg))))
      case _ => None)
    // protobuf.js:5413-5437
    case ContextualizedTypeStatsMsg => (
      match number
      case 1 => Some(Target(Context, Single(Sub(StatsContextMsg))))
      case 2 => Some(Target(PerTypeStat, Keyed(Sub(TypeStatMsg))))
      case _ => None)
    // protobuf.js:5665-5700
    case FieldStatMsg => (
      match number
      case 3 => Some(Target(ReturnType, Single(Plain(Text))))
      case 4 => Some(Target(ErrorsCount, Single(Plain(UInt64))))
      case 5 => Some(Target(Count, Single(Plain(UInt64))))
      case 6 => Some(Target(RequestsWithErrorsCount, Single(Plain(UInt64))))
      case 9 => Some(Target(LatencyCount, Packed(SInt64)))
      case _ => None)
    // protobuf.js:5920-5941
    case TypeStatMsg => (
      match number
      case 3 => Some(Target(PerFieldStat, Keyed(Sub(FieldStatMsg))))
      case _ => None)
    // protobuf.js:6117-6136
    case FieldMsg => (
      match number
      case 2 => Some(Target(Name, Single(Plain(Text))))
      case 3 => Some(Target(ReturnType, Single(Plain(Text))))
      case _ => None)
    // protobuf.js:6310-6331
    case TypeMsg => (
      match number
      case 1 => Some(Target(Name, Single(Plain(Text))))
      case 2 => Some(Target(Field, Repeated(Sub(FieldMsg))))
      case _ => None)
    // protobuf.js:6527-6554
    case ReportMsg => (
      match number
      case 1 => Some(Target(Header, Single(Sub(ReportHeaderMsg))))
      case 5 => Some(Target(TracesPerQuery, Keyed(Sub(TracesAndStatsMsg))))
      case 2 => Some(Target(EndTime, Single(Sub(TimestampMsg))))
      case _ => None)
    // protobuf.js:6763-6790
    case ContextualizedStatsMsg => (
      match number
      case 1 => Some(Target(Context, Single(Sub(StatsContextMsg))))
      case 2 => Some(Target(QueryLatencyStats, Single(Sub(QueryLatencyStatsMsg))))
      case 3 => Some(Target(PerTypeStat, Keyed(Sub(TypeStatMsg))))
      case _ => None)
    // protobuf.js:7014-7042
    case TracesAndStatsMsg => (
      match number
      case 1 => Some(Target(Trace, Repeated(Sub(TraceMsg))))
      case 2 => Some(Target(StatsWithContext, Repeated(Sub(ContextualizedStatsMsg))))
      case 3 => Some(Target(InternalTracesContributingToStats, Repeated(Sub(TraceMsg))))
      case _ => None)
    // protobuf.js:7272-7291
    case TimestampMsg => (
      match number
      case 1 => Some(Target(Seconds, Single(Plain(Int64))))
      case 2 => Some(Target(Nanos, Single(Plain(Int32))))
      case _ => None)
  }

  // ---------------------------------------------------------------- the two tables agree

  /** What a slot writes under its tag is what the switch case of that tag reads, into the same
      property. */
  predicate SlotAgrees(t: MessageType, s: Slot) {
    && s.tag % 8 == WireType(s.kind)
    && s.tag < 0x1_0000_0000
    && Case(t, s.tag / 8) == Some(Target(s.property, DecodedKind(s.kind)))
  }

  predicate InFirstGroup(t: MessageType) {
    t in {CachePolicyMsg, DetailsMsg, ErrorMsg, HttpMsg, ValuesMsg, LocationMsg, QueryPlanNodeMsg,
          SequenceNodeMsg, ParallelNodeMsg, FetchNodeMsg, FlattenNodeMsg}
  }

  predicate InSecondGroup(t: MessageType) {
    t in {ResponsePathElementMsg, ReportHeaderMsg, PathErrorStatsMsg, StatsContextMsg,
          ContextualizedQueryLatencyStatsMsg, ContextualizedTypeStatsMsg}
  }

  predicate InThirdGroup(t: MessageType) {
    && !InFirstGroup(t) && !InSecondGroup(t)
    && t !in {TraceMsg, NodeMsg, QueryLatencyStatsMsg}
  }

  /** The encoder and the decoder of every message type agree, slot by slot. */
  lemma TablesAgree(t: MessageType, i: nat)
    requires i < SlotCount(t)
    ensures SlotAgrees(t, SlotAt(t, i))
  {
    match t
    case TraceMsg => TraceTablesAgree(i);
    case NodeMsg => NodeTablesAgree(i);
    case QueryLatencyStatsMsg => LatencyTablesAgree(i);
    case _ =>
      if InFirstGroup(t) { FirstTablesAgree(t, i); }
      else if InSecondGroup(t) { SecondTablesAgree(t, i); }
      else { ThirdTablesAgree(t, i); }
  }

  lemma TraceTablesAgree(i: nat)
    requires i < SlotCount(TraceMsg)
    ensures SlotAgrees(TraceMsg, SlotAt(TraceMsg, i))
  {
  }

  lemma NodeTablesAgree(i: nat)
    requires i < SlotCount(NodeMsg)
    ensures SlotAgrees(NodeMsg, SlotAt(NodeMsg, i))
  {
  }

  lemma LatencyTablesAgree(i: nat)
    requires i < SlotCount(QueryLatencyStatsMsg)
    ensures SlotAgrees(QueryLatencyStatsMsg, SlotAt(QueryLatencyStatsMsg, i))
  {
  }

  lemma FirstTablesAgree(t: MessageType, i: nat)
    requires i < SlotCount(t) && InFirstGroup(t)
    ensures SlotAgrees(t, SlotAt(t, i))
  {
  }

  lemma SecondTablesAgree(t: MessageType, i: nat)
    requires i < SlotCount(t) && InSecondGroup(t)
    ensures SlotAgrees(t, SlotAt(t, i))
  {
  }

  lemma ThirdTablesAgree(t: MessageType, i: nat)
    requires i < SlotCount(t) && InThirdGroup(t)
    ensures SlotAgrees(t, SlotAt(t, i))
  {
  }

  /** `encode` writes the fields in ascending order of their numbers. */
  lemma NumbersAscend(t: MessageType, i: nat)
    requires i + 1 < SlotCount(t)
    ensures SlotAt(t, i).tag / 8 < SlotAt(t, i + 1).tag / 8
  {
    match t
    case TraceMsg => TraceNumbersAscend(i);
    case _ => OtherNumbersAscend(t, i);
  }

  lemma TraceNumbersAscend(i: nat)
    requires i + 1 < SlotCount(TraceMsg)
    ensures SlotAt(TraceMsg, i).tag / 8 < SlotAt(TraceMsg, i + 1).tag / 8
  {
  }

  lemma OtherNumbersAscend(t: MessageType, i: nat)
    requires i + 1 < SlotCount(t) && !t.TraceMsg?
    ensures SlotAt(t, i).tag / 8 < SlotAt(t, i + 1).tag / 8
  {
  }

  lemma {:induction false} NumbersAscendFar(t: MessageType, i: nat, j: nat)
    requires i < j < SlotCount(t)
    ensures SlotAt(t, i).tag / 8 < SlotAt(t, j).tag / 8
  {
    hide SlotAt, SlotCount;
    NumbersAscend(t, j - 1);
    if i < j - 1 {
      NumbersAscendFar(t, i, j - 1);
    }
  }

  /** `encode` writes each property once. */
  lemma PropertiesDistinct(t: MessageType, i: nat, j: nat)
    requires i < j < SlotCount(t)
    ensures SlotAt(t, i).property != SlotAt(t, j).property
  {
    hide SlotAt, SlotCount, Case;
    TablesAgree(t, i);
    TablesAgree(t, j);
    NumbersAscendFar(t, i, j);
    if SlotAt(t, i).property == SlotAt(t, j).property {
      CasesDistinct(t, SlotAt(t, i).tag / 8, SlotAt(t, j).tag / 8);
    }
  }

  /** `decode` assigns each property in one case. */
  lemma CasesDistinct(t: MessageType, number: nat, other: nat)
    requires Case(t, number).Some? && Case(t, other).Some?
    requires Case(t, number).value.property == Case(t, other).value.property
    ensures number == other
  {
    hide Case;
    match t
    case TraceMsg =>
      if number < 14 { TraceCasesDistinct(number, other); } else { TraceCasesDistinctLate(number, other); }
    case NodeMsg => NodeCasesDistinct(number, other);
    case QueryLatencyStatsMsg => LatencyCasesDistinct(number, other);
    case _ =>
      if InFirstGroup(t) {
        if t.FetchNodeMsg? || t.HttpMsg? { LargeCasesDistinct(t, number, other); }
        else { FirstCasesDistinct(t, number, other); }
      }
      else if InSecondGroup(t) { SecondCasesDistinct(t, number, other); }
      else { ThirdCasesDistinct(t, number, other); }
  }

  lemma TraceCasesDistinct(number: nat, other: nat)
    requires number < 14 && Case(TraceMsg, number).Some? && Case(TraceMsg, other).Some?
    requires Case(TraceMsg, number).value.property == Case(TraceMsg, other).value.property
    ensures number == other
  {
  }

  lemma TraceCasesDistinctLate(number: nat, other: nat)
    requires number >= 14 && Case(TraceMsg, number).Some? && Case(TraceMsg, other).Some?
    requires Case(TraceMsg, number).value.property == Case(TraceMsg, other).value.property
    ensures number == other
  {
  }

  lemma NodeCasesDistinct(number: nat, other: nat)
    requires Case(NodeMsg, number).Some? && Case(NodeMsg, other).Some?
    requires Case(NodeMsg, number).value.property == Case(NodeMsg, other).value.property
    ensures number == other
  {
  }

  lemma LatencyCasesDistinct(number: nat, other: nat)
    requires Case(QueryLatencyStatsMsg, number).Some? && Case(QueryLatencyStatsMsg, other).Some?
    requires Case(QueryLatencyStatsMsg, number).value.property ==
             Case(QueryLatencyStatsMsg, other).value.property
    ensures number == other
  {
  }

  lemma LargeCasesDistinct(t: MessageType, number: nat, other: nat)
    requires t.FetchNodeMsg? || t.HttpMsg?
    requires Case(t, number).Some? && Case(t, other).Some?
    requires Case(t, number).value.property == Case(t, other).value.property
    ensures number == other
  {
  }

  lemma FirstCasesDistinct(t: MessageType, number: nat, other: nat)
    requires InFirstGroup(t) && !t.FetchNodeMsg? && !t.HttpMsg?
    requires Case(t, number).Some? && Case(t, other).Some?
    requires Case(t, number).value.property == Case(t, other).value.property
    ensures number == other
  {
  }

  lemma SecondCasesDistinct(t: MessageType, number: nat, other: nat)
    requires InSecondGroup(t) && Case(t, number).Some? && Case(t, other).Some?
    requires Case(t, number).value.property == Case(t, other).value.property
    ensures number == other
  {
  }

  lemma ThirdCasesDistinct(t: MessageType, number: nat, other: nat)
    requires InThirdGroup(t) && Case(t, number).Some? && Case(t, other).Some?
    requires Case(t, number).value.property == Case(t, other).value.property
    ensures number == other
  {
  }

  // ---------------------------------------------------------------- nothing is left out

  /** The slot does not have this field number. */
  predicate Elsewhere(t: MessageType, i: nat, number: nat) {
    i < SlotCount(t) ==> SlotAt(t, i).tag / 8 != number
  }

  ghost predicate IsWritten(t: MessageType, number: nat) {
    exists i: nat | i < SlotCount(t) :: SlotAt(t, i).tag / 8 == number
  }

  lemma SlotsElsewhere(t: MessageType, number: nat, i: nat)
    requires !IsWritten(t, number)
    ensures Elsewhere(t, i, number)
  {
  }

  /** Whatever `decode` knows `encode` writes: the property that the switch assigns under a number
      is one that a slot writes under that number. */
  lemma CasesWritten(t: MessageType, number: nat) returns (i: nat)
    requires Case(t, number).Some?
    ensures i < SlotCount(t) && SlotAt(t, i).tag / 8 == number
    ensures SlotAt(t, i).property == Case(t, number).value.property
    ensures DecodedKind(SlotAt(t, i).kind) == Case(t, number).value.kind
  {
    if !IsWritten(t, number) {
      Unwritten(t, number);
    }
    hide Case, SlotAt, SlotCount;
    i :| i < SlotCount(t) && SlotAt(t, i).tag / 8 == number;
    TablesAgree(t, i);
  }

  lemma Unwritten(t: MessageType, number: nat)
    requires !IsWritten(t, number)
    ensures Case(t, number).None?
  {
    hide Case, SlotAt, SlotCount, IsWritten, Elsewhere;
    forall i: nat
      ensures Elsewhere(t, i, number)
    {
      SlotsElsewhere(t, number, i);
    }
    match t
    case TraceMsg => TraceUnwritten(number);
    case NodeMsg => LargeUnwritten(t, number);
    case QueryLatencyStatsMsg => LargeUnwritten(t, number);
    case HttpMsg => LargeUnwritten(t, number);
    case _ =>
      if InFirstGroup(t) { FirstUnwritten(t, number); } else { OtherUnwritten(t, number); }
  }

  lemma TraceUnwritten(number: nat)
    requires forall i: nat :: Elsewhere(TraceMsg, i, number)
    ensures Case(TraceMsg, number).None?
  {
    var t := TraceMsg;
    assert Elsewhere(t, 0, number) && Elsewhere(t, 1, number) && Elsewhere(t, 2, number) && Elsewhere(t, 3, number);
    assert Elsewhere(t, 4, number) && Elsewhere(t, 5, number) && Elsewhere(t, 6, number) && Elsewhere(t, 7, number);
    assert Elsewhere(t, 8, number) && Elsewhere(t, 9, number) && Elsewhere(t, 10, number) && Elsewhere(t, 11, number);
    assert Elsewhere(t, 12, number) && Elsewhere(t, 13, number) && Elsewhere(t, 14, number);
    assert Elsewhere(t, 15, number) && Elsewhere(t, 16, number) && Elsewhere(t, 17, number);
    assert Elsewhere(t, 18, number) && Elsewhere(t, 19, number);
  }

  lemma LargeUnwritten(t: MessageType, number: nat)
    requires t in {NodeMsg, QueryLatencyStatsMsg, HttpMsg}
    requires forall i: nat :: Elsewhere(t, i, number)
    ensures Case(t, number).None?
  {
    assert Elsewhere(t, 0, number) && Elsewhere(t, 1, number) && Elsewhere(t, 2, number) && Elsewhere(t, 3, number);
    assert Elsewhere(t, 4, number) && Elsewhere(t, 5, number) && Elsewhere(t, 6, number) && Elsewhere(t, 7, number);
    assert Elsewhere(t, 8, number) && Elsewhere(t, 9, number) && Elsewhere(t, 10, number) && Elsewhere(t, 11, number);
  }

  lemma FirstUnwritten(t: MessageType, number: nat)
    requires InFirstGroup(t) && !t.HttpMsg?
    requires forall i: nat :: Elsewhere(t, i, number)
    ensures Case(t, number).None?
  {
    assert Elsewhere(t, 0, number) && Elsewhere(t, 1, number) && Elsewhere(t, 2, number) && Elsewhere(t, 3, number);
    assert Elsewhere(t, 4, number) && Elsewhere(t, 5, number);
  }

  lemma OtherUnwritten(t: MessageType, number: nat)
    requires !InFirstGroup(t) && t !in {TraceMsg, NodeMsg, QueryLatencyStatsMsg}
    requires forall i: nat :: Elsewhere(t, i, number)
    ensures Case(t, number).None?
  {
    assert Elsewhere(t, 0, number) && Elsewhere(t, 1, number) && Elsewhere(t, 2, number) && Elsewhere(t, 3, number);
    assert Elsewhere(t, 4, number) && Elsewhere(t, 5, number) && Elsewhere(t, 6, number);
  }
}
