/**
  * Row-by-row facts about the alternatives table of get_weather, relating it to the
  * other two tables. Each row gets four one-lookup lemmas rather than one lemma over
  * the whole table, because a concrete lookup in each table is cheap to prove and a
  * symbolic one over all rows is not.
  */
module CityRows {
  import opened Cities

  /**
    * What each alternatives row satisfies: four spellings, of which the last two are
    * the forms without ",KR" (the suffixed form, such as "Gimpo-si" or "Yangpyeong-gun",
    * and the plain form); both translate back to the Korean name, and the query resolved from
    * KOREAN_CITIES is one of the spellings, so the final request of get_weather
    * repeats one of them.
    */
  predicate AlternativesRow(city: string)
  {
    Alternatives(city).Some? &&
    var names := Alternatives(city).value;
    |names| == 4 &&
    KoreanCityName(names[2]) == city &&
    KoreanCityName(names[3]) == city &&
    ResolveQuery(city) in names
  }

  /** weather_app.py:645, with the KOREAN_CITIES entry for 김포. */
  lemma GimpoResolves()
    ensures ResolveQuery("김포") == "Gimpo-si,KR"
  {
  }

  lemma GimpoSuffixedTranslatesBack()
    ensures KoreanCityName("Gimpo-si") == "김포"
  {
  }

  lemma GimpoTranslatesBack()
    ensures KoreanCityName("Gimpo") == "김포"
  {
  }

  lemma GimpoRow()
    ensures AlternativesRow("김포")
  {
    GimpoResolves();
    GimpoSuffixedTranslatesBack();
    GimpoTranslatesBack();
  }

  /** weather_app.py:646, with the KOREAN_CITIES entry for 화성. */
  lemma HwaseongResolves()
    ensures ResolveQuery("화성") == "Hwaseong,KR"
  {
  }

  lemma HwaseongSuffixedTranslatesBack()
    ensures KoreanCityName("Hwaseong-si") == "화성"
  {
  }

  lemma HwaseongTranslatesBack()
    ensures KoreanCityName("Hwaseong") == "화성"
  {
  }

  lemma HwaseongRow()
    ensures AlternativesRow("화성")
  {
    HwaseongResolves();
    HwaseongSuffixedTranslatesBack();
    HwaseongTranslatesBack();
  }

  /** weather_app.py:647, with the KOREAN_CITIES entry for 시흥. */
  lemma SiheungResolves()
    ensures ResolveQuery("시흥") == "Siheung,KR"
  {
  }

  lemma SiheungSuffixedTranslatesBack()
    ensures KoreanCityName("Siheung-si") == "시흥"
  {
  }

  lemma SiheungTranslatesBack()
    ensures KoreanCityName("Siheung") == "시흥"
  {
  }

  lemma SiheungRow()
    ensures AlternativesRow("시흥")
  {
    SiheungResolves();
    SiheungSuffixedTranslatesBack();
    SiheungTranslatesBack();
  }

  /** weather_app.py:648, with the KOREAN_CITIES entry for 군포. */
  lemma GunpoResolves()
    ensures ResolveQuery("군포") == "Gunpo,KR"
  {
  }

  lemma GunpoSuffixedTranslatesBack()
    ensures KoreanCityName("Gunpo-si") == "군포"
  {
  }

  lemma GunpoTranslatesBack()
    ensures KoreanCityName("Gunpo") == "군포"
  {
  }

  lemma GunpoRow()
    ensures AlternativesRow("군포")
  {
    GunpoResolves();
    GunpoSuffixedTranslatesBack();
    GunpoTranslatesBack();
  }

  /** weather_app.py:649, with the KOREAN_CITIES entry for 의왕. */
  lemma UiwangResolves()
    ensures ResolveQuery("의왕") == "Uiwang,KR"
  {
  }

  lemma UiwangSuffixedTranslatesBack()
    ensures KoreanCityName("Uiwang-si") == "의왕"
  {
  }

  lemma UiwangTranslatesBack()
    ensures KoreanCityName("Uiwang") == "의왕"
  {
  }

  lemma UiwangRow()
    ensures AlternativesRow("의왕")
  {
    UiwangResolves();
    UiwangSuffixedTranslatesBack();
    UiwangTranslatesBack();
  }

  /** weather_app.py:650, with the KOREAN_CITIES entry for 하남. */
  lemma HanamResolves()
    ensures ResolveQuery("하남") == "Hanam,KR"
  {
  }

  lemma HanamSuffixedTranslatesBack()
    ensures KoreanCityName("Hanam-si") == "하남"
  {
  }

  lemma HanamTranslatesBack()
    ensures KoreanCityName("Hanam") == "하남"
  {
  }

  lemma HanamRow()
    ensures AlternativesRow("하남")
  {
    HanamResolves();
    HanamSuffixedTranslatesBack();
    HanamTranslatesBack();
  }

  /** weather_app.py:651, with the KOREAN_CITIES entry for 광명. */
  lemma GwangmyeongResolves()
    ensures ResolveQuery("광명") == "Gwangmyeong,KR"
  {
  }

  lemma GwangmyeongSuffixedTranslatesBack()
    ensures KoreanCityName("Gwangmyeong-si") == "광명"
  {
  }

  lemma GwangmyeongTranslatesBack()
    ensures KoreanCityName("Gwangmyeong") == "광명"
  {
  }

  lemma GwangmyeongRow()
    ensures AlternativesRow("광명")
  {
    GwangmyeongResolves();
    GwangmyeongSuffixedTranslatesBack();
    GwangmyeongTranslatesBack();
  }

  /** weather_app.py:652, with the KOREAN_CITIES entry for 평택. */
  lemma PyeongtaekResolves()
    ensures ResolveQuery("평택") == "Pyeongtaek,KR"
  {
  }

  lemma PyeongtaekSuffixedTranslatesBack()
    ensures KoreanCityName("Pyeongtaek-si") == "평택"
  {
  }

  lemma PyeongtaekTranslatesBack()
    ensures KoreanCityName("Pyeongtaek") == "평택"
  {
  }

  lemma PyeongtaekRow()
    ensures AlternativesRow("평택")
  {
    PyeongtaekResolves();
    PyeongtaekSuffixedTranslatesBack();
    PyeongtaekTranslatesBack();
  }

  /** weather_app.py:653, with the KOREAN_CITIES entry for 과천. */
  lemma GwacheonResolves()
    ensures ResolveQuery("과천") == "Gwacheon,KR"
  {
  }

  lemma GwacheonSuffixedTranslatesBack()
    ensures KoreanCityName("Gwacheon-si") == "과천"
  {
  }

  lemma GwacheonTranslatesBack()
    ensures KoreanCityName("Gwacheon") == "과천"
  {
  }

  lemma GwacheonRow()
    ensures AlternativesRow("과천")
  {
    GwacheonResolves();
    GwacheonSuffixedTranslatesBack();
    GwacheonTranslatesBack();
  }

  /** weather_app.py:654, with the KOREAN_CITIES entry for 오산. */
  lemma OsanResolves()
    ensures ResolveQuery("오산") == "Osan,KR"
  {
  }

  lemma OsanSuffixedTranslatesBack()
    ensures KoreanCityName("Osan-si") == "오산"
  {
  }

  lemma OsanTranslatesBack()
    ensures KoreanCityName("Osan") == "오산"
  {
  }

  lemma OsanRow()
    ensures AlternativesRow("오산")
  {
    OsanResolves();
    OsanSuffixedTranslatesBack();
    OsanTranslatesBack();
  }

  /** weather_app.py:655, with the KOREAN_CITIES entry for 이천. */
  lemma IcheonResolves()
    ensures ResolveQuery("이천") == "Icheon,KR"
  {
  }

  lemma IcheonSuffixedTranslatesBack()
    ensures KoreanCityName("Icheon-si") == "이천"
  {
  }

  lemma IcheonTranslatesBack()
    ensures KoreanCityName("Icheon") == "이천"
  {
  }

  lemma IcheonRow()
    ensures AlternativesRow("이천")
  {
    IcheonResolves();
    IcheonSuffixedTranslatesBack();
    IcheonTranslatesBack();
  }

  /** weather_app.py:656, with the KOREAN_CITIES entry for 안성. */
  lemma AnseongResolves()
    ensures ResolveQuery("안성") == "Anseong,KR"
  {
  }

  lemma AnseongSuffixedTranslatesBack()
    ensures KoreanCityName("Anseong-si") == "안성"
  {
  }

  lemma AnseongTranslatesBack()
    ensures KoreanCityName("Anseong") == "안성"
  {
  }

  lemma AnseongRow()
    ensures AlternativesRow("안성")
  {
    AnseongResolves();
    AnseongSuffixedTranslatesBack();
    AnseongTranslatesBack();
  }

  /** weather_app.py:657, with the KOREAN_CITIES entry for 여주. */
  lemma YeojuResolves()
    ensures ResolveQuery("여주") == "Yeoju,KR"
  {
  }

  lemma YeojuSuffixedTranslatesBack()
    ensures KoreanCityName("Yeoju-si") == "여주"
  {
  }

  lemma YeojuTranslatesBack()
    ensures KoreanCityName("Yeoju") == "여주"
  {
  }

  lemma YeojuRow()
    ensures AlternativesRow("여주")
  {
    YeojuResolves();
    YeojuSuffixedTranslatesBack();
    YeojuTranslatesBack();
  }

  /** weather_app.py:658, with the KOREAN_CITIES entry for 양평. */
  lemma YangpyeongResolves()
    ensures ResolveQuery("양평") == "Yangpyeong,KR"
  {
  }

  lemma YangpyeongSuffixedTranslatesBack()
    ensures KoreanCityName("Yangpyeong-gun") == "양평"
  {
  }

  lemma YangpyeongTranslatesBack()
    ensures KoreanCityName("Yangpyeong") == "양평"
  {
  }

  lemma YangpyeongRow()
    ensures AlternativesRow("양평")
  {
    YangpyeongResolves();
    YangpyeongSuffixedTranslatesBack();
    YangpyeongTranslatesBack();
  }

  /** weather_app.py:659, with the KOREAN_CITIES entry for 동두천. */
  lemma DongducheonResolves()
    ensures ResolveQuery("동두천") == "Dongducheon,KR"
  {
  }

  lemma DongducheonSuffixedTranslatesBack()
    ensures KoreanCityName("Dongducheon-si") == "동두천"
  {
  }

  lemma DongducheonTranslatesBack()
    ensures KoreanCityName("Dongducheon") == "동두천"
  {
  }

  lemma DongducheonRow()
    ensures AlternativesRow("동두천")
  {
    DongducheonResolves();
    DongducheonSuffixedTranslatesBack();
    DongducheonTranslatesBack();
  }

  /** weather_app.py:660, with the KOREAN_CITIES entry for 가평. */
  lemma GapyeongResolves()
    ensures ResolveQuery("가평") == "Gapyeong,KR"
  {
  }

  lemma GapyeongSuffixedTranslatesBack()
    ensures KoreanCityName("Gapyeong-gun") == "가평"
  {
  }

  lemma GapyeongTranslatesBack()
    ensures KoreanCityName("Gapyeong") == "가평"
  {
  }

  lemma GapyeongRow()
    ensures AlternativesRow("가평")
  {
    GapyeongResolves();
    GapyeongSuffixedTranslatesBack();
    GapyeongTranslatesBack();
  }

  /** weather_app.py:661, with the KOREAN_CITIES entry for 연천. */
  lemma YeoncheonResolves()
    ensures ResolveQuery("연천") == "Yeoncheon,KR"
  {
  }

  lemma YeoncheonSuffixedTranslatesBack()
    ensures KoreanCityName("Yeoncheon-gun") == "연천"
  {
  }

  lemma YeoncheonTranslatesBack()
    ensures KoreanCityName("Yeoncheon") == "연천"
  {
  }

  lemma YeoncheonRow()
    ensures AlternativesRow("연천")
  {
    YeoncheonResolves();
    YeoncheonSuffixedTranslatesBack();
    YeoncheonTranslatesBack();
  }

  /** weather_app.py:662, with the KOREAN_CITIES entry for 양주. */
  lemma YangjuResolves()
    ensures ResolveQuery("양주") == "Yangju,KR"
  {
  }

  lemma YangjuSuffixedTranslatesBack()
    ensures KoreanCityName("Yangju-si") == "양주"
  {
  }

  lemma YangjuTranslatesBack()
    ensures KoreanCityName("Yangju") == "양주"
  {
  }

  lemma YangjuRow()
    ensures AlternativesRow("양주")
  {
    YangjuResolves();
    YangjuSuffixedTranslatesBack();
    YangjuTranslatesBack();
  }

  /** weather_app.py:663, with the KOREAN_CITIES entry for 구리. */
  lemma GuriResolves()
    ensures ResolveQuery("구리") == "Guri,KR"
  {
  }

  lemma GuriSuffixedTranslatesBack()
    ensures KoreanCityName("Guri-si") == "구리"
  {
  }

  lemma GuriTranslatesBack()
    ensures KoreanCityName("Guri") == "구리"
  {
  }

  lemma GuriRow()
    ensures AlternativesRow("구리")
  {
    GuriResolves();
    GuriSuffixedTranslatesBack();
    GuriTranslatesBack();
  }

  /** weather_app.py:664, with the KOREAN_CITIES entry for 남양주. */
  lemma NamyangjuResolves()
    ensures ResolveQuery("남양주") == "Namyangju,KR"
  {
  }

  lemma NamyangjuSuffixedTranslatesBack()
    ensures KoreanCityName("Namyangju-si") == "남양주"
  {
  }

  lemma NamyangjuTranslatesBack()
    ensures KoreanCityName("Namyangju") == "남양주"
  {
  }

  lemma NamyangjuRow()
    ensures AlternativesRow("남양주")
  {
    NamyangjuResolves();
    NamyangjuSuffixedTranslatesBack();
    NamyangjuTranslatesBack();
  }

  /** weather_app.py:665, with the KOREAN_CITIES entry for 포천. */
  lemma PocheonResolves()
    ensures ResolveQuery("포천") == "Pocheon,KR"
  {
  }

  lemma PocheonSuffixedTranslatesBack()
    ensures KoreanCityName("Pocheon-si") == "포천"
  {
  }

  lemma PocheonTranslatesBack()
    ensures KoreanCityName("Pocheon") == "포천"
  {
  }

  lemma PocheonRow()
    ensures AlternativesRow("포천")
  {
    PocheonResolves();
    PocheonSuffixedTranslatesBack();
    PocheonTranslatesBack();
  }

  /** weather_app.py:666, with the KOREAN_CITIES entry for 춘천. */
  lemma ChuncheonResolves()
    ensures ResolveQuery("춘천") == "Chuncheon,KR"
  {
  }

  lemma ChuncheonSuffixedTranslatesBack()
    ensures KoreanCityName("Chuncheon-si") == "춘천"
  {
  }

  lemma ChuncheonTranslatesBack()
    ensures KoreanCityName("Chuncheon") == "춘천"
  {
  }

  lemma ChuncheonRow()
    ensures AlternativesRow("춘천")
  {
    ChuncheonResolves();
    ChuncheonSuffixedTranslatesBack();
    ChuncheonTranslatesBack();
  }

  /** weather_app.py:667, with the KOREAN_CITIES entry for 원주. */
  lemma WonjuResolves()
    ensures ResolveQuery("원주") == "Wonju,KR"
  {
  }

  lemma WonjuSuffixedTranslatesBack()
    ensures KoreanCityName("Wonju-si") == "원주"
  {
  }

  lemma WonjuTranslatesBack()
    ensures KoreanCityName("Wonju") == "원주"
  {
  }

  lemma WonjuRow()
    ensures AlternativesRow("원주")
  {
    WonjuResolves();
    WonjuSuffixedTranslatesBack();
    WonjuTranslatesBack();
  }

  /** weather_app.py:668, with the KOREAN_CITIES entry for 강릉. */
  lemma GangneungResolves()
    ensures ResolveQuery("강릉") == "Gangneung,KR"
  {
  }

  lemma GangneungSuffixedTranslatesBack()
    ensures KoreanCityName("Gangneung-si") == "강릉"
  {
  }

  lemma GangneungTranslatesBack()
    ensures KoreanCityName("Gangneung") == "강릉"
  {
  }

  lemma GangneungRow()
    ensures AlternativesRow("강릉")
  {
    GangneungResolves();
    GangneungSuffixedTranslatesBack();
    GangneungTranslatesBack();
  }

  /** weather_app.py:669, with the KOREAN_CITIES entry for 속초. */
  lemma SokchoResolves()
    ensures ResolveQuery("속초") == "Sokcho,KR"
  {
  }

  lemma SokchoSuffixedTranslatesBack()
    ensures KoreanCityName("Sokcho-si") == "속초"
  {
  }

  lemma SokchoTranslatesBack()
    ensures KoreanCityName("Sokcho") == "속초"
  {
  }

  lemma SokchoRow()
    ensures AlternativesRow("속초")
  {
    SokchoResolves();
    SokchoSuffixedTranslatesBack();
    SokchoTranslatesBack();
  }

  /** weather_app.py:670, with the KOREAN_CITIES entry for 동해. */
  lemma DonghaeResolves()
    ensures ResolveQuery("동해") == "Donghae,KR"
  {
  }

  lemma DonghaeSuffixedTranslatesBack()
    ensures KoreanCityName("Donghae-si") == "동해"
  {
  }

  lemma DonghaeTranslatesBack()
    ensures KoreanCityName("Donghae") == "동해"
  {
  }

  lemma DonghaeRow()
    ensures AlternativesRow("동해")
  {
    DonghaeResolves();
    DonghaeSuffixedTranslatesBack();
    DonghaeTranslatesBack();
  }

  /** weather_app.py:671, with the KOREAN_CITIES entry for 태백. */
  lemma TaebaekResolves()
    ensures ResolveQuery("태백") == "Taebaek,KR"
  {
  }

  lemma TaebaekSuffixedTranslatesBack()
    ensures KoreanCityName("Taebaek-si") == "태백"
  {
  }

  lemma TaebaekTranslatesBack()
    ensures KoreanCityName("Taebaek") == "태백"
  {
  }

  lemma TaebaekRow()
    ensures AlternativesRow("태백")
  {
    TaebaekResolves();
    TaebaekSuffixedTranslatesBack();
    TaebaekTranslatesBack();
  }

  /** weather_app.py:672, with the KOREAN_CITIES entry for 평창. */
  lemma PyeongchangResolves()
    ensures ResolveQuery("평창") == "Pyeongchang,KR"
  {
  }

  lemma PyeongchangSuffixedTranslatesBack()
    ensures KoreanCityName("Pyeongchang-gun") == "평창"
  {
  }

  lemma PyeongchangTranslatesBack()
    ensures KoreanCityName("Pyeongchang") == "평창"
  {
  }

  lemma PyeongchangRow()
    ensures AlternativesRow("평창")
  {
    PyeongchangResolves();
    PyeongchangSuffixedTranslatesBack();
    PyeongchangTranslatesBack();
  }

  /** weather_app.py:673, with the KOREAN_CITIES entry for 정선. */
  lemma JeongseonResolves()
    ensures ResolveQuery("정선") == "Jeongseon,KR"
  {
  }

  lemma JeongseonSuffixedTranslatesBack()
    ensures KoreanCityName("Jeongseon-gun") == "정선"
  {
  }

  lemma JeongseonTranslatesBack()
    ensures KoreanCityName("Jeongseon") == "정선"
  {
  }

  lemma JeongseonRow()
    ensures AlternativesRow("정선")
  {
    JeongseonResolves();
    JeongseonSuffixedTranslatesBack();
    JeongseonTranslatesBack();
  }

  /** weather_app.py:674, with the KOREAN_CITIES entry for 청주. */
  lemma CheongjuResolves()
    ensures ResolveQuery("청주") == "Cheongju,KR"
  {
  }

  lemma CheongjuSuffixedTranslatesBack()
    ensures KoreanCityName("Cheongju-si") == "청주"
  {
  }

  lemma CheongjuTranslatesBack()
    ensures KoreanCityName("Cheongju") == "청주"
  {
  }

  lemma CheongjuRow()
    ensures AlternativesRow("청주")
  {
    CheongjuResolves();
    CheongjuSuffixedTranslatesBack();
    CheongjuTranslatesBack();
  }

  /** weather_app.py:675, with the KOREAN_CITIES entry for 충주. */
  lemma ChungjuResolves()
    ensures ResolveQuery("충주") == "Chungju,KR"
  {
  }

  lemma ChungjuSuffixedTranslatesBack()
    ensures KoreanCityName("Chungju-si") == "충주"
  {
  }

  lemma ChungjuTranslatesBack()
    ensures KoreanCityName("Chungju") == "충주"
  {
  }

  lemma ChungjuRow()
    ensures AlternativesRow("충주")
  {
    ChungjuResolves();
    ChungjuSuffixedTranslatesBack();
    ChungjuTranslatesBack();
  }

  /** weather_app.py:676, with the KOREAN_CITIES entry for 천안. */
  lemma CheonanResolves()
    ensures ResolveQuery("천안") == "Cheonan,KR"
  {
  }

  lemma CheonanSuffixedTranslatesBack()
    ensures KoreanCityName("Cheonan-si") == "천안"
  {
  }

  lemma CheonanTranslatesBack()
    ensures KoreanCityName("Cheonan") == "천안"
  {
  }

  lemma CheonanRow()
    ensures AlternativesRow("천안")
  {
    CheonanResolves();
    CheonanSuffixedTranslatesBack();
    CheonanTranslatesBack();
  }

  /** weather_app.py:677, with the KOREAN_CITIES entry for 공주. */
  lemma GongjuResolves()
    ensures ResolveQuery("공주") == "Gongju,KR"
  {
  }

  lemma GongjuSuffixedTranslatesBack()
    ensures KoreanCityName("Gongju-si") == "공주"
  {
  }

  lemma GongjuTranslatesBack()
    ensures KoreanCityName("Gongju") == "공주"
  {
  }

  lemma GongjuRow()
    ensures AlternativesRow("공주")
  {
    GongjuResolves();
    GongjuSuffixedTranslatesBack();
    GongjuTranslatesBack();
  }

  /** weather_app.py:678, with the KOREAN_CITIES entry for 보령. */
  lemma BoryeongResolves()
    ensures ResolveQuery("보령") == "Boryeong,KR"
  {
  }

  lemma BoryeongSuffixedTranslatesBack()
    ensures KoreanCityName("Boryeong-si") == "보령"
  {
  }

  lemma BoryeongTranslatesBack()
    ensures KoreanCityName("Boryeong") == "보령"
  {
  }

  lemma BoryeongRow()
    ensures AlternativesRow("보령")
  {
    BoryeongResolves();
    BoryeongSuffixedTranslatesBack();
    BoryeongTranslatesBack();
  }

  /** weather_app.py:679, with the KOREAN_CITIES entry for 아산. */
  lemma AsanResolves()
    ensures ResolveQuery("아산") == "Asan,KR"
  {
  }

  lemma AsanSuffixedTranslatesBack()
    ensures KoreanCityName("Asan-si") == "아산"
  {
  }

  lemma AsanTranslatesBack()
    ensures KoreanCityName("Asan") == "아산"
  {
  }

  lemma AsanRow()
    ensures AlternativesRow("아산")
  {
    AsanResolves();
    AsanSuffixedTranslatesBack();
    AsanTranslatesBack();
  }

  /** weather_app.py:680, with the KOREAN_CITIES entry for 서산. */
  lemma SeosanResolves()
    ensures ResolveQuery("서산") == "Seosan,KR"
  {
  }

  lemma SeosanSuffixedTranslatesBack()
    ensures KoreanCityName("Seosan-si") == "서산"
  {
  }

  lemma SeosanTranslatesBack()
    ensures KoreanCityName("Seosan") == "서산"
  {
  }

  lemma SeosanRow()
    ensures AlternativesRow("서산")
  {
    SeosanResolves();
    SeosanSuffixedTranslatesBack();
    SeosanTranslatesBack();
  }

  /** weather_app.py:681, with the KOREAN_CITIES entry for 논산. */
  lemma NonsanResolves()
    ensures ResolveQuery("논산") == "Nonsan,KR"
  {
  }

  lemma NonsanSuffixedTranslatesBack()
    ensures KoreanCityName("Nonsan-si") == "논산"
  {
  }

  lemma NonsanTranslatesBack()
    ensures KoreanCityName("Nonsan") == "논산"
  {
  }

  lemma NonsanRow()
    ensures AlternativesRow("논산")
  {
    NonsanResolves();
    NonsanSuffixedTranslatesBack();
    NonsanTranslatesBack();
  }

  /** weather_app.py:682, with the KOREAN_CITIES entry for 전주. */
  lemma JeonjuResolves()
    ensures ResolveQuery("전주") == "Jeonju,KR"
  {
  }

  lemma JeonjuSuffixedTranslatesBack()
    ensures KoreanCityName("Jeonju-si") == "전주"
  {
  }

  lemma JeonjuTranslatesBack()
    ensures KoreanCityName("Jeonju") == "전주"
  {
  }

  lemma JeonjuRow()
    ensures AlternativesRow("전주")
  {
    JeonjuResolves();
    JeonjuSuffixedTranslatesBack();
    JeonjuTranslatesBack();
  }

  /** weather_app.py:683, with the KOREAN_CITIES entry for 군산. */
  lemma GunsanResolves()
    ensures ResolveQuery("군산") == "Gunsan,KR"
  {
  }

  lemma GunsanSuffixedTranslatesBack()
    ensures KoreanCityName("Gunsan-si") == "군산"
  {
  }

  lemma GunsanTranslatesBack()
    ensures KoreanCityName("Gunsan") == "군산"
  {
  }

  lemma GunsanRow()
    ensures AlternativesRow("군산")
  {
    GunsanResolves();
    GunsanSuffixedTranslatesBack();
    GunsanTranslatesBack();
  }

  /** weather_app.py:684, with the KOREAN_CITIES entry for 익산. */
  lemma IksanResolves()
    ensures ResolveQuery("익산") == "Iksan,KR"
  {
  }

  lemma IksanSuffixedTranslatesBack()
    ensures KoreanCityName("Iksan-si") == "익산"
  {
  }

  lemma IksanTranslatesBack()
    ensures KoreanCityName("Iksan") == "익산"
  {
  }

  lemma IksanRow()
    ensures AlternativesRow("익산")
  {
    IksanResolves();
    IksanSuffixedTranslatesBack();
    IksanTranslatesBack();
  }

  /** weather_app.py:685, with the KOREAN_CITIES entry for 목포. */
  lemma MokpoResolves()
    ensures ResolveQuery("목포") == "Mokpo,KR"
  {
  }

  lemma MokpoSuffixedTranslatesBack()
    ensures KoreanCityName("Mokpo-si") == "목포"
  {
  }

  lemma MokpoTranslatesBack()
    ensures KoreanCityName("Mokpo") == "목포"
  {
  }

  lemma MokpoRow()
    ensures AlternativesRow("목포")
  {
    MokpoResolves();
    MokpoSuffixedTranslatesBack();
    MokpoTranslatesBack();
  }

  /** weather_app.py:686, with the KOREAN_CITIES entry for 여수. */
  lemma YeosuResolves()
    ensures ResolveQuery("여수") == "Yeosu,KR"
  {
  }

  lemma YeosuSuffixedTranslatesBack()
    ensures KoreanCityName("Yeosu-si") == "여수"
  {
  }

  lemma YeosuTranslatesBack()
    ensures KoreanCityName("Yeosu") == "여수"
  {
  }

  lemma YeosuRow()
    ensures AlternativesRow("여수")
  {
    YeosuResolves();
    YeosuSuffixedTranslatesBack();
    YeosuTranslatesBack();
  }

  /** weather_app.py:687, with the KOREAN_CITIES entry for 순천. */
  lemma SuncheonResolves()
    ensures ResolveQuery("순천") == "Suncheon,KR"
  {
  }

  lemma SuncheonSuffixedTranslatesBack()
    ensures KoreanCityName("Suncheon-si") == "순천"
  {
  }

  lemma SuncheonTranslatesBack()
    ensures KoreanCityName("Suncheon") == "순천"
  {
  }

  lemma SuncheonRow()
    ensures AlternativesRow("순천")
  {
    SuncheonResolves();
    SuncheonSuffixedTranslatesBack();
    SuncheonTranslatesBack();
  }

  /** weather_app.py:688, with the KOREAN_CITIES entry for 나주. */
  lemma NajuResolves()
    ensures ResolveQuery("나주") == "Naju,KR"
  {
  }

  lemma NajuSuffixedTranslatesBack()
    ensures KoreanCityName("Naju-si") == "나주"
  {
  }

  lemma NajuTranslatesBack()
    ensures KoreanCityName("Naju") == "나주"
  {
  }

  lemma NajuRow()
    ensures AlternativesRow("나주")
  {
    NajuResolves();
    NajuSuffixedTranslatesBack();
    NajuTranslatesBack();
  }

  /** weather_app.py:689, with the KOREAN_CITIES entry for 광양. */
  lemma GwangyangResolves()
    ensures ResolveQuery("광양") == "Gwangyang,KR"
  {
  }

  lemma GwangyangSuffixedTranslatesBack()
    ensures KoreanCityName("Gwangyang-si") == "광양"
  {
  }

  lemma GwangyangTranslatesBack()
    ensures KoreanCityName("Gwangyang") == "광양"
  {
  }

  lemma GwangyangRow()
    ensures AlternativesRow("광양")
  {
    GwangyangResolves();
    GwangyangSuffixedTranslatesBack();
    GwangyangTranslatesBack();
  }

  /** weather_app.py:690, with the KOREAN_CITIES entry for 포항. */
  lemma PohangResolves()
    ensures ResolveQuery("포항") == "Pohang,KR"
  {
  }

  lemma PohangSuffixedTranslatesBack()
    ensures KoreanCityName("Pohang-si") == "포항"
  {
  }

  lemma PohangTranslatesBack()
    ensures KoreanCityName("Pohang") == "포항"
  {
  }

  lemma PohangRow()
    ensures AlternativesRow("포항")
  {
    PohangResolves();
    PohangSuffixedTranslatesBack();
    PohangTranslatesBack();
  }

  /** weather_app.py:691, with the KOREAN_CITIES entry for 경주. */
  lemma GyeongjuResolves()
    ensures ResolveQuery("경주") == "Gyeongju,KR"
  {
  }

  lemma GyeongjuSuffixedTranslatesBack()
    ensures KoreanCityName("Gyeongju-si") == "경주"
  {
  }

  lemma GyeongjuTranslatesBack()
    ensures KoreanCityName("Gyeongju") == "경주"
  {
  }

  lemma GyeongjuRow()
    ensures AlternativesRow("경주")
  {
    GyeongjuResolves();
    GyeongjuSuffixedTranslatesBack();
    GyeongjuTranslatesBack();
  }

  /** weather_app.py:692, with the KOREAN_CITIES entry for 김천. */
  lemma GimcheonResolves()
    ensures ResolveQuery("김천") == "Gimcheon,KR"
  {
  }

  lemma GimcheonSuffixedTranslatesBack()
    ensures KoreanCityName("Gimcheon-si") == "김천"
  {
  }

  lemma GimcheonTranslatesBack()
    ensures KoreanCityName("Gimcheon") == "김천"
  {
  }

  lemma GimcheonRow()
    ensures AlternativesRow("김천")
  {
    GimcheonResolves();
    GimcheonSuffixedTranslatesBack();
    GimcheonTranslatesBack();
  }

  /** weather_app.py:693, with the KOREAN_CITIES entry for 안동. */
  lemma AndongResolves()
    ensures ResolveQuery("안동") == "Andong,KR"
  {
  }

  lemma AndongSuffixedTranslatesBack()
    ensures KoreanCityName("Andong-si") == "안동"
  {
  }

  lemma AndongTranslatesBack()
    ensures KoreanCityName("Andong") == "안동"
  {
  }

  lemma AndongRow()
    ensures AlternativesRow("안동")
  {
    AndongResolves();
    AndongSuffixedTranslatesBack();
    AndongTranslatesBack();
  }

  /** weather_app.py:694, with the KOREAN_CITIES entry for 구미. */
  lemma GumiResolves()
    ensures ResolveQuery("구미") == "Gumi,KR"
  {
  }

  lemma GumiSuffixedTranslatesBack()
    ensures KoreanCityName("Gumi-si") == "구미"
  {
  }

  lemma GumiTranslatesBack()
    ensures KoreanCityName("Gumi") == "구미"
  {
  }

  lemma GumiRow()
    ensures AlternativesRow("구미")
  {
    GumiResolves();
    GumiSuffixedTranslatesBack();
    GumiTranslatesBack();
  }

  /** weather_app.py:695, with the KOREAN_CITIES entry for 창원. */
  lemma ChangwonResolves()
    ensures ResolveQuery("창원") == "Changwon,KR"
  {
  }

  lemma ChangwonSuffixedTranslatesBack()
    ensures KoreanCityName("Changwon-si") == "창원"
  {
  }

  lemma ChangwonTranslatesBack()
    ensures KoreanCityName("Changwon") == "창원"
  {
  }

  lemma ChangwonRow()
    ensures AlternativesRow("창원")
  {
    ChangwonResolves();
    ChangwonSuffixedTranslatesBack();
    ChangwonTranslatesBack();
  }

  /** weather_app.py:696, with the KOREAN_CITIES entry for 진주. */
  lemma JinjuResolves()
    ensures ResolveQuery("진주") == "Jinju,KR"
  {
  }

  lemma JinjuSuffixedTranslatesBack()
    ensures KoreanCityName("Jinju-si") == "진주"
  {
  }

  lemma JinjuTranslatesBack()
    ensures KoreanCityName("Jinju") == "진주"
  {
  }

  lemma JinjuRow()
    ensures AlternativesRow("진주")
  {
    JinjuResolves();
    JinjuSuffixedTranslatesBack();
    JinjuTranslatesBack();
  }

  /** weather_app.py:697, with the KOREAN_CITIES entry for 통영. */
  lemma TongyeongResolves()
    ensures ResolveQuery("통영") == "Tongyeong,KR"
  {
  }

  lemma TongyeongSuffixedTranslatesBack()
    ensures KoreanCityName("Tongyeong-si") == "통영"
  {
  }

  lemma TongyeongTranslatesBack()
    ensures KoreanCityName("Tongyeong") == "통영"
  {
  }

  lemma TongyeongRow()
    ensures AlternativesRow("통영")
  {
    TongyeongResolves();
    TongyeongSuffixedTranslatesBack();
    TongyeongTranslatesBack();
  }

  /** weather_app.py:698, with the KOREAN_CITIES entry for 제주. */
  lemma JejuResolves()
    ensures ResolveQuery("제주") == "Jeju,KR"
  {
  }

  lemma JejuSuffixedTranslatesBack()
    ensures KoreanCityName("Jeju-si") == "제주"
  {
  }

  lemma JejuTranslatesBack()
    ensures KoreanCityName("Jeju") == "제주"
  {
  }

  lemma JejuRow()
    ensures AlternativesRow("제주")
  {
    JejuResolves();
    JejuSuffixedTranslatesBack();
    JejuTranslatesBack();
  }

  /** weather_app.py:699, with the KOREAN_CITIES entry for 서귀포. */
  lemma SeogwipoResolves()
    ensures ResolveQuery("서귀포") == "Seogwipo,KR"
  {
  }

  lemma SeogwipoSuffixedTranslatesBack()
    ensures KoreanCityName("Seogwipo-si") == "서귀포"
  {
  }

  lemma SeogwipoTranslatesBack()
    ensures KoreanCityName("Seogwipo") == "서귀포"
  {
  }

  lemma SeogwipoRow()
    ensures AlternativesRow("서귀포")
  {
    SeogwipoResolves();
    SeogwipoSuffixedTranslatesBack();
    SeogwipoTranslatesBack();
  }

  /** Every row of the alternatives table satisfies AlternativesRow. */
  lemma AlternativesRoundTrip(city: string)
    requires Alternatives(city).Some?
    ensures AlternativesRow(city)
  {
    match city
    case "김포" => GimpoRow();
    case "화성" => HwaseongRow();
    case "시흥" => SiheungRow();
    case "군포" => GunpoRow();
    case "의왕" => UiwangRow();
    case "하남" => HanamRow();
    case "광명" => GwangmyeongRow();
    case "평택" => PyeongtaekRow();
    case "과천" => GwacheonRow();
    case "오산" => OsanRow();
    case "이천" => IcheonRow();
    case "안성" => AnseongRow();
    case "여주" => YeojuRow();
    case "양평" => YangpyeongRow();
    case "동두천" => DongducheonRow();
    case "가평" => GapyeongRow();
    case "연천" => YeoncheonRow();
    case "양주" => YangjuRow();
    case "구리" => GuriRow();
    case "남양주" => NamyangjuRow();
    case "포천" => PocheonRow();
    case "춘천" => ChuncheonRow();
    case "원주" => WonjuRow();
    case "강릉" => GangneungRow();
    case "속초" => SokchoRow();
    case "동해" => DonghaeRow();
    case "태백" => TaebaekRow();
    case "평창" => PyeongchangRow();
    case "정선" => JeongseonRow();
    case "청주" => CheongjuRow();
    case "충주" => ChungjuRow();
    case "천안" => CheonanRow();
    case "공주" => GongjuRow();
    case "보령" => BoryeongRow();
    case "아산" => AsanRow();
    case "서산" => SeosanRow();
    case "논산" => NonsanRow();
    case "전주" => JeonjuRow();
    case "군산" => GunsanRow();
    case "익산" => IksanRow();
    case "목포" => MokpoRow();
    case "여수" => YeosuRow();
    case "순천" => SuncheonRow();
    case "나주" => NajuRow();
    case "광양" => GwangyangRow();
    case "포항" => PohangRow();
    case "경주" => GyeongjuRow();
    case "김천" => GimcheonRow();
    case "안동" => AndongRow();
    case "구미" => GumiRow();
    case "창원" => ChangwonRow();
    case "진주" => JinjuRow();
    case "통영" => TongyeongRow();
    case "제주" => JejuRow();
    case "서귀포" => SeogwipoRow();
  }

  /**
    * get_korean_city_name is not injective: the suffixed and the plain spelling of a
    * city both give its Korean name.
    */
  lemma ReverseNotInjective()
    ensures KoreanCityName("Gimpo-si") == KoreanCityName("Gimpo") == "김포"
  {
    GimpoSuffixedTranslatesBack();
    GimpoTranslatesBack();
  }
}
