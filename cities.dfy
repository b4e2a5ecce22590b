/**
  * The location-name tables of weather_app.py and the lookups built on them:
  * Korean name -> OpenWeatherMap query (KOREAN_CITIES), Korean name -> ordered
  * spellings to try (the alternatives table inside get_weather), and
  * romanised name -> Korean name (the table inside get_korean_city_name).
  *
  * KOREAN_CITIES is one dictionary in the source. Here it is split into chunks of at
  * most sixteen entries, by province and in source order, only because the verifier
  * proves the ",KR" suffix of a small `match` cheaply and of a large one slowly;
  * KoreanCities puts the chunks back together.
  */
module Cities {
  import opened Wrappers

  /** A query that pins the city to South Korea: it ends in the country suffix ",KR". */
  predicate IsKoreanQuery(q: string)
  {
    |q| >= 3 && q[|q| - 3..] == ",KR"
  }


  /** KOREAN_CITIES, 특별시/광역시 entries (weather_app.py:36-43). */
  function MetropolitanCities(name: string): (r: Option<string>)
    ensures r.Some? ==> IsKoreanQuery(r.value)
  {
    match name
    case "서울" => Some("Seoul,KR")
    case "부산" => Some("Busan,KR")
    case "대구" => Some("Daegu,KR")
    case "인천" => Some("Incheon,KR")
    case "광주" => Some("Gwangju,KR")
    case "대전" => Some("Daejeon,KR")
    case "울산" => Some("Ulsan,KR")
    case "세종" => Some("Sejong,KR")
    case _ => None
  }

  /** KOREAN_CITIES, 경기도 entries (weather_app.py:46-60). */
  function GyeonggiCitiesFirst(name: string): (r: Option<string>)
    ensures r.Some? ==> IsKoreanQuery(r.value)
  {
    match name
    case "수원" => Some("Suwon,KR")
    case "성남" => Some("Seongnam,KR")
    case "의정부" => Some("Uijeongbu,KR")
    case "안양" => Some("Anyang,KR")
    case "부천" => Some("Bucheon,KR")
    case "광명" => Some("Gwangmyeong,KR")
    case "평택" => Some("Pyeongtaek,KR")
    case "과천" => Some("Gwacheon,KR")
    case "오산" => Some("Osan,KR")
    case "시흥" => Some("Siheung,KR")
    case "군포" => Some("Gunpo,KR")
    case "의왕" => Some("Uiwang,KR")
    case "하남" => Some("Hanam,KR")
    case "용인" => Some("Yongin,KR")
    case "파주" => Some("Paju,KR")
    case _ => None
  }

  /** KOREAN_CITIES, 경기도 entries (weather_app.py:61-74). */
  function GyeonggiCitiesSecond(name: string): (r: Option<string>)
    ensures r.Some? ==> IsKoreanQuery(r.value)
  {
    match name
    case "이천" => Some("Icheon,KR")
    case "안성" => Some("Anseong,KR")
    case "김포" => Some("Gimpo-si,KR")
    case "화성" => Some("Hwaseong,KR")
    case "여주" => Some("Yeoju,KR")
    case "양평" => Some("Yangpyeong,KR")
    case "고양" => Some("Goyang,KR")
    case "동두천" => Some("Dongducheon,KR")
    case "가평" => Some("Gapyeong,KR")
    case "연천" => Some("Yeoncheon,KR")
    case "양주" => Some("Yangju,KR")
    case "구리" => Some("Guri,KR")
    case "남양주" => Some("Namyangju,KR")
    case "포천" => Some("Pocheon,KR")
    case _ => None
  }

  /** KOREAN_CITIES, 강원도 entries (weather_app.py:77-85). */
  function GangwonCitiesFirst(name: string): (r: Option<string>)
    ensures r.Some? ==> IsKoreanQuery(r.value)
  {
    match name
    case "춘천" => Some("Chuncheon,KR")
    case "원주" => Some("Wonju,KR")
    case "강릉" => Some("Gangneung,KR")
    case "동해" => Some("Donghae,KR")
    case "태백" => Some("Taebaek,KR")
    case "속초" => Some("Sokcho,KR")
    case "삼척" => Some("Samcheok,KR")
    case "홍천" => Some("Hongcheon,KR")
    case "횡성" => Some("Hoengseong,KR")
    case _ => None
  }

  /** KOREAN_CITIES, 강원도 entries (weather_app.py:86-94). */
  function GangwonCitiesSecond(name: string): (r: Option<string>)
    ensures r.Some? ==> IsKoreanQuery(r.value)
  {
    match name
    case "영월" => Some("Yeongwol,KR")
    case "평창" => Some("Pyeongchang,KR")
    case "정선" => Some("Jeongseon,KR")
    case "철원" => Some("Cheorwon,KR")
    case "화천" => Some("Hwacheon,KR")
    case "양구" => Some("Yanggu,KR")
    case "인제" => Some("Inje,KR")
    case "고성" => Some("Goseong,KR")
    case "양양" => Some("Yangyang,KR")
    case _ => None
  }

  /** KOREAN_CITIES, 충청북도 entries (weather_app.py:97-107). */
  function ChungbukCities(name: string): (r: Option<string>)
    ensures r.Some? ==> IsKoreanQuery(r.value)
  {
    match name
    case "청주" => Some("Cheongju,KR")
    case "충주" => Some("Chungju,KR")
    case "제천" => Some("Jecheon,KR")
    case "보은" => Some("Boeun,KR")
    case "옥천" => Some("Okcheon,KR")
    case "영동" => Some("Yeongdong,KR")
    case "증평" => Some("Jeungpyeong,KR")
    case "진천" => Some("Jincheon,KR")
    case "괴산" => Some("Goesan,KR")
    case "음성" => Some("Eumseong,KR")
    case "단양" => Some("Danyang,KR")
    case _ => None
  }

  /** KOREAN_CITIES, 충청남도 entries (weather_app.py:110-124). */
  function ChungnamCities(name: string): (r: Option<string>)
    ensures r.Some? ==> IsKoreanQuery(r.value)
  {
    match name
    case "천안" => Some("Cheonan,KR")
    case "공주" => Some("Gongju,KR")
    case "보령" => Some("Boryeong,KR")
    case "아산" => Some("Asan,KR")
    case "서산" => Some("Seosan,KR")
    case "논산" => Some("Nonsan,KR")
    case "계룡" => Some("Gyeryong,KR")
    case "당진" => Some("Dangjin,KR")
    case "금산" => Some("Geumsan,KR")
    case "부여" => Some("Buyeo,KR")
    case "서천" => Some("Seocheon,KR")
    case "청양" => Some("Cheongyang,KR")
    case "홍성" => Some("Hongseong,KR")
    case "예산" => Some("Yesan,KR")
    case "태안" => Some("Taean,KR")
    case _ => None
  }

  /** KOREAN_CITIES, 전라북도 entries (weather_app.py:127-140). */
  function JeonbukCities(name: string): (r: Option<string>)
    ensures r.Some? ==> IsKoreanQuery(r.value)
  {
    match name
    case "전주" => Some("Jeonju,KR")
    case "군산" => Some("Gunsan,KR")
    case "익산" => Some("Iksan,KR")
    case "정읍" => Some("Jeongeup,KR")
    case "남원" => Some("Namwon,KR")
    case "김제" => Some("Gimje,KR")
    case "완주" => Some("Wanju,KR")
    case "진안" => Some("Jinan,KR")
    case "무주" => Some("Muju,KR")
    case "장수" => Some("Jangsu,KR")
    case "임실" => Some("Imsil,KR")
    case "순창" => Some("Sunchang,KR")
    case "고창" => Some("Gochang,KR")
    case "부안" => Some("Buan,KR")
    case _ => None
  }

  /** KOREAN_CITIES, 전라남도 entries (weather_app.py:143-153). */
  function JeonnamCitiesFirst(name: string): (r: Option<string>)
    ensures r.Some? ==> IsKoreanQuery(r.value)
  {
    match name
    case "목포" => Some("Mokpo,KR")
    case "여수" => Some("Yeosu,KR")
    case "순천" => Some("Suncheon,KR")
    case "나주" => Some("Naju,KR")
    case "광양" => Some("Gwangyang,KR")
    case "담양" => Some("Damyang,KR")
    case "곡성" => Some("Gokseong,KR")
    case "구례" => Some("Gurye,KR")
    case "고흥" => Some("Goheung,KR")
    case "보성" => Some("Boseong,KR")
    case "화순" => Some("Hwasun,KR")
    case _ => None
  }

  /** KOREAN_CITIES, 전라남도 entries (weather_app.py:154-164). */
  function JeonnamCitiesSecond(name: string): (r: Option<string>)
    ensures r.Some? ==> IsKoreanQuery(r.value)
  {
    match name
    case "장흥" => Some("Jangheung,KR")
    case "강진" => Some("Gangjin,KR")
    case "해남" => Some("Haenam,KR")
    case "영암" => Some("Yeongam,KR")
    case "무안" => Some("Muan,KR")
    case "함평" => Some("Hampyeong,KR")
    case "영광" => Some("Yeonggwang,KR")
    case "장성" => Some("Jangseong,KR")
    case "완도" => Some("Wando,KR")
    case "진도" => Some("Jindo,KR")
    case "신안" => Some("Sinan,KR")
    case _ => None
  }

  /** KOREAN_CITIES, 경상북도 entries (weather_app.py:167-178). */
  function GyeongbukCitiesFirst(name: string): (r: Option<string>)
    ensures r.Some? ==> IsKoreanQuery(r.value)
  {
    match name
    case "포항" => Some("Pohang,KR")
    case "경주" => Some("Gyeongju,KR")
    case "김천" => Some("Gimcheon,KR")
    case "안동" => Some("Andong,KR")
    case "구미" => Some("Gumi,KR")
    case "영주" => Some("Yeongju,KR")
    case "영천" => Some("Yeongcheon,KR")
    case "상주" => Some("Sangju,KR")
    case "문경" => Some("Mungyeong,KR")
    case "경산" => Some("Gyeongsan,KR")
    case "군위" => Some("Gunwi,KR")
    case "의성" => Some("Uiseong,KR")
    case _ => None
  }

  /** KOREAN_CITIES, 경상북도 entries (weather_app.py:179-189). */
  function GyeongbukCitiesSecond(name: string): (r: Option<string>)
    ensures r.Some? ==> IsKoreanQuery(r.value)
  {
    match name
    case "청송" => Some("Cheongsong,KR")
    case "영양" => Some("Yeongyang,KR")
    case "영덕" => Some("Yeongdeok,KR")
    case "청도" => Some("Cheongdo,KR")
    case "고령" => Some("Goryeong,KR")
    case "성주" => Some("Seongju,KR")
    case "칠곡" => Some("Chilgok,KR")
    case "예천" => Some("Yecheon,KR")
    case "봉화" => Some("Bonghwa,KR")
    case "울진" => Some("Uljin,KR")
    case "울릉" => Some("Ulleung,KR")
    case _ => None
  }

  /** KOREAN_CITIES, 경상남도 entries (weather_app.py:192-200). */
  function GyeongnamCitiesFirst(name: string): (r: Option<string>)
    ensures r.Some? ==> IsKoreanQuery(r.value)
  {
    match name
    case "창원" => Some("Changwon,KR")
    case "진주" => Some("Jinju,KR")
    case "통영" => Some("Tongyeong,KR")
    case "사천" => Some("Sacheon,KR")
    case "김해" => Some("Gimhae,KR")
    case "밀양" => Some("Miryang,KR")
    case "거제" => Some("Geoje,KR")
    case "양산" => Some("Yangsan,KR")
    case "의령" => Some("Uiryeong,KR")
    case _ => None
  }

  /** KOREAN_CITIES, 경상남도 entries (weather_app.py:201-209). */
  function GyeongnamCitiesSecond(name: string): (r: Option<string>)
    ensures r.Some? ==> IsKoreanQuery(r.value)
  {
    match name
    case "함안" => Some("Haman,KR")
    case "창녕" => Some("Changnyeong,KR")
    case "고성" => Some("Goseong,KR")
    case "남해" => Some("Namhae,KR")
    case "하동" => Some("Hadong,KR")
    case "산청" => Some("Sancheong,KR")
    case "함양" => Some("Hamyang,KR")
    case "거창" => Some("Geochang,KR")
    case "합천" => Some("Hapcheon,KR")
    case _ => None
  }

  /** KOREAN_CITIES, 제주도 entries (weather_app.py:212-213). */
  function JejuCities(name: string): (r: Option<string>)
    ensures r.Some? ==> IsKoreanQuery(r.value)
  {
    match name
    case "제주" => Some("Jeju,KR")
    case "서귀포" => Some("Seogwipo,KR")
    case _ => None
  }

  /**
    * `KOREAN_CITIES.get(name)`. The dictionary literal lists 고성 twice (Gangwon and
    * Gyeongnam) with the same value, so taking the first hit in source order gives
    * the value Python keeps.
    */
  function KoreanCities(name: string): (r: Option<string>)
    ensures r.Some? ==> IsKoreanQuery(r.value)
  {
    MetropolitanCities(name)
    .OrElse(GyeonggiCitiesFirst(name))
    .OrElse(GyeonggiCitiesSecond(name))
    .OrElse(GangwonCitiesFirst(name))
    .OrElse(GangwonCitiesSecond(name))
    .OrElse(ChungbukCities(name))
    .OrElse(ChungnamCities(name))
    .OrElse(JeonbukCities(name))
    .OrElse(JeonnamCitiesFirst(name))
    .OrElse(JeonnamCitiesSecond(name))
    .OrElse(GyeongbukCitiesFirst(name))
    .OrElse(GyeongbukCitiesSecond(name))
    .OrElse(GyeongnamCitiesFirst(name))
    .OrElse(GyeongnamCitiesSecond(name))
    .OrElse(JejuCities(name))
  }

  /**
    * The query get_weather sends last (weather_app.py:703-707): the table value for a
    * known Korean name, the input itself otherwise. Either way it is a Korean query
    * or the untouched input.
    */
  function ResolveQuery(city: string): (r: string)
    ensures KoreanCities(city).Some? ==> r == KoreanCities(city).value && IsKoreanQuery(r)
    ensures KoreanCities(city).None? ==> r == city
  {
    match KoreanCities(city)
    case Some(query) => query
    case None => city
  }


  /**
    * The alternatives table inside get_weather (weather_app.py:644-700): for 55 Korean
    * names, the spellings to try in order.
    */
  function Alternatives(city: string): (r: Option<seq<string>>)
    ensures r.Some? ==> |r.value| == 4
  {
    match city
    case "김포" => Some(["Gimpo-si,KR", "Gimpo,KR", "Gimpo-si", "Gimpo"])
    case "화성" => Some(["Hwaseong-si,KR", "Hwaseong,KR", "Hwaseong-si", "Hwaseong"])
    case "시흥" => Some(["Siheung-si,KR", "Siheung,KR", "Siheung-si", "Siheung"])
    case "군포" => Some(["Gunpo-si,KR", "Gunpo,KR", "Gunpo-si", "Gunpo"])
    case "의왕" => Some(["Uiwang-si,KR", "Uiwang,KR", "Uiwang-si", "Uiwang"])
    case "하남" => Some(["Hanam-si,KR", "Hanam,KR", "Hanam-si", "Hanam"])
    case "광명" => Some(["Gwangmyeong-si,KR", "Gwangmyeong,KR", "Gwangmyeong-si", "Gwangmyeong"])
    case "평택" => Some(["Pyeongtaek-si,KR", "Pyeongtaek,KR", "Pyeongtaek-si", "Pyeongtaek"])
    case "과천" => Some(["Gwacheon-si,KR", "Gwacheon,KR", "Gwacheon-si", "Gwacheon"])
    case "오산" => Some(["Osan-si,KR", "Osan,KR", "Osan-si", "Osan"])
    case "이천" => Some(["Icheon-si,KR", "Icheon,KR", "Icheon-si", "Icheon"])
    case "안성" => Some(["Anseong-si,KR", "Anseong,KR", "Anseong-si", "Anseong"])
    case "여주" => Some(["Yeoju-si,KR", "Yeoju,KR", "Yeoju-si", "Yeoju"])
    case "양평" => Some(["Yangpyeong-gun,KR", "Yangpyeong,KR", "Yangpyeong-gun", "Yangpyeong"])
    case "동두천" => Some(["Dongducheon-si,KR", "Dongducheon,KR", "Dongducheon-si", "Dongducheon"])
    case "가평" => Some(["Gapyeong-gun,KR", "Gapyeong,KR", "Gapyeong-gun", "Gapyeong"])
    case "연천" => Some(["Yeoncheon-gun,KR", "Yeoncheon,KR", "Yeoncheon-gun", "Yeoncheon"])
    case "양주" => Some(["Yangju-si,KR", "Yangju,KR", "Yangju-si", "Yangju"])
    case "구리" => Some(["Guri-si,KR", "Guri,KR", "Guri-si", "Guri"])
    case "남양주" => Some(["Namyangju-si,KR", "Namyangju,KR", "Namyangju-si", "Namyangju"])
    case "포천" => Some(["Pocheon-si,KR", "Pocheon,KR", "Pocheon-si", "Pocheon"])
    case "춘천" => Some(["Chuncheon-si,KR", "Chuncheon,KR", "Chuncheon-si", "Chuncheon"])
    case "원주" => Some(["Wonju-si,KR", "Wonju,KR", "Wonju-si", "Wonju"])
    case "강릉" => Some(["Gangneung-si,KR", "Gangneung,KR", "Gangneung-si", "Gangneung"])
    case "속초" => Some(["Sokcho-si,KR", "Sokcho,KR", "Sokcho-si", "Sokcho"])
    case "동해" => Some(["Donghae-si,KR", "Donghae,KR", "Donghae-si", "Donghae"])
    case "태백" => Some(["Taebaek-si,KR", "Taebaek,KR", "Taebaek-si", "Taebaek"])
    case "평창" => Some(["Pyeongchang-gun,KR", "Pyeongchang,KR", "Pyeongchang-gun", "Pyeongchang"])
    case "정선" => Some(["Jeongseon-gun,KR", "Jeongseon,KR", "Jeongseon-gun", "Jeongseon"])
    case "청주" => Some(["Cheongju-si,KR", "Cheongju,KR", "Cheongju-si", "Cheongju"])
    case "충주" => Some(["Chungju-si,KR", "Chungju,KR", "Chungju-si", "Chungju"])
    case "천안" => Some(["Cheonan-si,KR", "Cheonan,KR", "Cheonan-si", "Cheonan"])
    case "공주" => Some(["Gongju-si,KR", "Gongju,KR", "Gongju-si", "Gongju"])
    case "보령" => Some(["Boryeong-si,KR", "Boryeong,KR", "Boryeong-si", "Boryeong"])
    case "아산" => Some(["Asan-si,KR", "Asan,KR", "Asan-si", "Asan"])
    case "서산" => Some(["Seosan-si,KR", "Seosan,KR", "Seosan-si", "Seosan"])
    case "논산" => Some(["Nonsan-si,KR", "Nonsan,KR", "Nonsan-si", "Nonsan"])
    case "전주" => Some(["Jeonju-si,KR", "Jeonju,KR", "Jeonju-si", "Jeonju"])
    case "군산" => Some(["Gunsan-si,KR", "Gunsan,KR", "Gunsan-si", "Gunsan"])
    case "익산" => Some(["Iksan-si,KR", "Iksan,KR", "Iksan-si", "Iksan"])
    case "목포" => Some(["Mokpo-si,KR", "Mokpo,KR", "Mokpo-si", "Mokpo"])
    case "여수" => Some(["Yeosu-si,KR", "Yeosu,KR", "Yeosu-si", "Yeosu"])
    case "순천" => Some(["Suncheon-si,KR", "Suncheon,KR", "Suncheon-si", "Suncheon"])
    case "나주" => Some(["Naju-si,KR", "Naju,KR", "Naju-si", "Naju"])
    case "광양" => Some(["Gwangyang-si,KR", "Gwangyang,KR", "Gwangyang-si", "Gwangyang"])
    case "포항" => Some(["Pohang-si,KR", "Pohang,KR", "Pohang-si", "Pohang"])
    case "경주" => Some(["Gyeongju-si,KR", "Gyeongju,KR", "Gyeongju-si", "Gyeongju"])
    case "김천" => Some(["Gimcheon-si,KR", "Gimcheon,KR", "Gimcheon-si", "Gimcheon"])
    case "안동" => Some(["Andong-si,KR", "Andong,KR", "Andong-si", "Andong"])
    case "구미" => Some(["Gumi-si,KR", "Gumi,KR", "Gumi-si", "Gumi"])
    case "창원" => Some(["Changwon-si,KR", "Changwon,KR", "Changwon-si", "Changwon"])
    case "진주" => Some(["Jinju-si,KR", "Jinju,KR", "Jinju-si", "Jinju"])
    case "통영" => Some(["Tongyeong-si,KR", "Tongyeong,KR", "Tongyeong-si", "Tongyeong"])
    case "제주" => Some(["Jeju-si,KR", "Jeju,KR", "Jeju-si", "Jeju"])
    case "서귀포" => Some(["Seogwipo-si,KR", "Seogwipo,KR", "Seogwipo-si", "Seogwipo"])
    case _ => None
  }

  /**
    * The dictionary inside get_korean_city_name (weather_app.py:405-631). The literal
    * repeats eleven keys with identical values; each key appears here once.
    */
  function EnglishToKorean(name: string): Option<string>
  {
    match name
    case "Seoul" => Some("서울")
    case "Busan" => Some("부산")
    case "Daegu" => Some("대구")
    case "Incheon" => Some("인천")
    case "Gwangju" => Some("광주")
    case "Daejeon" => Some("대전")
    case "Ulsan" => Some("울산")
    case "Sejong" => Some("세종")
    case "Suwon" => Some("수원")
    case "Seongnam" => Some("성남")
    case "Uijeongbu" => Some("의정부")
    case "Anyang" => Some("안양")
    case "Bucheon" => Some("부천")
    case "Gwangmyeong" => Some("광명")
    case "Pyeongtaek" => Some("평택")
    case "Gwacheon" => Some("과천")
    case "Osan" => Some("오산")
    case "Siheung" => Some("시흥")
    case "Gunpo" => Some("군포")
    case "Uiwang" => Some("의왕")
    case "Hanam" => Some("하남")
    case "Yongin" => Some("용인")
    case "Paju" => Some("파주")
    case "Icheon" => Some("이천")
    case "Anseong" => Some("안성")
    case "Gimpo-si" => Some("김포")
    case "Gimpo" => Some("김포")
    case "Hwaseong-si" => Some("화성")
    case "Siheung-si" => Some("시흥")
    case "Gunpo-si" => Some("군포")
    case "Uiwang-si" => Some("의왕")
    case "Hanam-si" => Some("하남")
    case "Gwangmyeong-si" => Some("광명")
    case "Pyeongtaek-si" => Some("평택")
    case "Gwacheon-si" => Some("과천")
    case "Osan-si" => Some("오산")
    case "Icheon-si" => Some("이천")
    case "Anseong-si" => Some("안성")
    case "Yeoju-si" => Some("여주")
    case "Yangpyeong-gun" => Some("양평")
    case "Dongducheon-si" => Some("동두천")
    case "Gapyeong-gun" => Some("가평")
    case "Yeoncheon-gun" => Some("연천")
    case "Yangju-si" => Some("양주")
    case "Guri-si" => Some("구리")
    case "Namyangju-si" => Some("남양주")
    case "Pocheon-si" => Some("포천")
    case "Chuncheon-si" => Some("춘천")
    case "Wonju-si" => Some("원주")
    case "Gangneung-si" => Some("강릉")
    case "Sokcho-si" => Some("속초")
    case "Donghae-si" => Some("동해")
    case "Taebaek-si" => Some("태백")
    case "Pyeongchang-gun" => Some("평창")
    case "Jeongseon-gun" => Some("정선")
    case "Cheongju-si" => Some("청주")
    case "Chungju-si" => Some("충주")
    case "Cheonan-si" => Some("천안")
    case "Gongju-si" => Some("공주")
    case "Boryeong-si" => Some("보령")
    case "Asan-si" => Some("아산")
    case "Seosan-si" => Some("서산")
    case "Nonsan-si" => Some("논산")
    case "Jeonju-si" => Some("전주")
    case "Gunsan-si" => Some("군산")
    case "Iksan-si" => Some("익산")
    case "Mokpo-si" => Some("목포")
    case "Yeosu-si" => Some("여수")
    case "Suncheon-si" => Some("순천")
    case "Naju-si" => Some("나주")
    case "Gwangyang-si" => Some("광양")
    case "Pohang-si" => Some("포항")
    case "Gyeongju-si" => Some("경주")
    case "Gimcheon-si" => Some("김천")
    case "Andong-si" => Some("안동")
    case "Gumi-si" => Some("구미")
    case "Changwon-si" => Some("창원")
    case "Jinju-si" => Some("진주")
    case "Tongyeong-si" => Some("통영")
    case "Jeju-si" => Some("제주")
    case "Seogwipo-si" => Some("서귀포")
    case "Hwaseong" => Some("화성")
    case "Yeoju" => Some("여주")
    case "Yangpyeong" => Some("양평")
    case "Goyang" => Some("고양")
    case "Dongducheon" => Some("동두천")
    case "Gapyeong" => Some("가평")
    case "Yeoncheon" => Some("연천")
    case "Yangju" => Some("양주")
    case "Guri" => Some("구리")
    case "Namyangju" => Some("남양주")
    case "Pocheon" => Some("포천")
    case "Chuncheon" => Some("춘천")
    case "Wonju" => Some("원주")
    case "Gangneung" => Some("강릉")
    case "Donghae" => Some("동해")
    case "Taebaek" => Some("태백")
    case "Sokcho" => Some("속초")
    case "Samcheok" => Some("삼척")
    case "Hongcheon" => Some("홍천")
    case "Hoengseong" => Some("횡성")
    case "Yeongwol" => Some("영월")
    case "Pyeongchang" => Some("평창")
    case "Jeongseon" => Some("정선")
    case "Cheorwon" => Some("철원")
    case "Hwacheon" => Some("화천")
    case "Yanggu" => Some("양구")
    case "Inje" => Some("인제")
    case "Goseong" => Some("고성")
    case "Yangyang" => Some("양양")
    case "Cheongju" => Some("청주")
    case "Chungju" => Some("충주")
    case "Jecheon" => Some("제천")
    case "Boeun" => Some("보은")
    case "Okcheon" => Some("옥천")
    case "Yeongdong" => Some("영동")
    case "Jeungpyeong" => Some("증평")
    case "Jincheon" => Some("진천")
    case "Goesan" => Some("괴산")
    case "Eumseong" => Some("음성")
    case "Danyang" => Some("단양")
    case "Cheonan" => Some("천안")
    case "Gongju" => Some("공주")
    case "Boryeong" => Some("보령")
    case "Asan" => Some("아산")
    case "Seosan" => Some("서산")
    case "Nonsan" => Some("논산")
    case "Gyeryong" => Some("계룡")
    case "Dangjin" => Some("당진")
    case "Geumsan" => Some("금산")
    case "Buyeo" => Some("부여")
    case "Seocheon" => Some("서천")
    case "Cheongyang" => Some("청양")
    case "Hongseong" => Some("홍성")
    case "Yesan" => Some("예산")
    case "Taean" => Some("태안")
    case "Jeonju" => Some("전주")
    case "Gunsan" => Some("군산")
    case "Iksan" => Some("익산")
    case "Jeongeup" => Some("정읍")
    case "Namwon" => Some("남원")
    case "Gimje" => Some("김제")
    case "Wanju" => Some("완주")
    case "Jinan" => Some("진안")
    case "Muju" => Some("무주")
    case "Jangsu" => Some("장수")
    case "Imsil" => Some("임실")
    case "Sunchang" => Some("순창")
    case "Gochang" => Some("고창")
    case "Buan" => Some("부안")
    case "Mokpo" => Some("목포")
    case "Yeosu" => Some("여수")
    case "Suncheon" => Some("순천")
    case "Naju" => Some("나주")
    case "Gwangyang" => Some("광양")
    case "Damyang" => Some("담양")
    case "Gokseong" => Some("곡성")
    case "Gurye" => Some("구례")
    case "Goheung" => Some("고흥")
    case "Boseong" => Some("보성")
    case "Hwasun" => Some("화순")
    case "Jangheung" => Some("장흥")
    case "Gangjin" => Some("강진")
    case "Haenam" => Some("해남")
    case "Yeongam" => Some("영암")
    case "Muan" => Some("무안")
    case "Hampyeong" => Some("함평")
    case "Yeonggwang" => Some("영광")
    case "Jangseong" => Some("장성")
    case "Wando" => Some("완도")
    case "Jindo" => Some("진도")
    case "Sinan" => Some("신안")
    case "Pohang" => Some("포항")
    case "Gyeongju" => Some("경주")
    case "Gimcheon" => Some("김천")
    case "Andong" => Some("안동")
    case "Gumi" => Some("구미")
    case "Yeongju" => Some("영주")
    case "Yeongcheon" => Some("영천")
    case "Sangju" => Some("상주")
    case "Mungyeong" => Some("문경")
    case "Gyeongsan" => Some("경산")
    case "Gunwi" => Some("군위")
    case "Uiseong" => Some("의성")
    case "Cheongsong" => Some("청송")
    case "Yeongyang" => Some("영양")
    case "Yeongdeok" => Some("영덕")
    case "Cheongdo" => Some("청도")
    case "Goryeong" => Some("고령")
    case "Seongju" => Some("성주")
    case "Chilgok" => Some("칠곡")
    case "Yecheon" => Some("예천")
    case "Bonghwa" => Some("봉화")
    case "Uljin" => Some("울진")
    case "Ulleung" => Some("울릉")
    case "Changwon" => Some("창원")
    case "Jinju" => Some("진주")
    case "Tongyeong" => Some("통영")
    case "Sacheon" => Some("사천")
    case "Gimhae" => Some("김해")
    case "Miryang" => Some("밀양")
    case "Geoje" => Some("거제")
    case "Yangsan" => Some("양산")
    case "Uiryeong" => Some("의령")
    case "Haman" => Some("함안")
    case "Changnyeong" => Some("창녕")
    case "Namhae" => Some("남해")
    case "Hadong" => Some("하동")
    case "Sancheong" => Some("산청")
    case "Hamyang" => Some("함양")
    case "Geochang" => Some("거창")
    case "Hapcheon" => Some("합천")
    case "Jeju" => Some("제주")
    case "Seogwipo" => Some("서귀포")
    case _ => None
  }

  /** get_korean_city_name (weather_app.py:402-638): the Korean name, or the input unchanged. */
  function KoreanCityName(name: string): (r: string)
    ensures EnglishToKorean(name).Some? ==> r == EnglishToKorean(name).value
    ensures EnglishToKorean(name).None? ==> r == name
  {
    EnglishToKorean(name).GetOr(name)
  }
}
